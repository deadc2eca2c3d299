/**
  Index exactness over whole runs, exactly when a retry breaks it, and what it
  buys the readers: counts that survive the removal of finished records.
 */
module IndexRuns {
  import opened Ordering
  import opened JobTypes
  import opened QueueModel
  import opened CoreInvariant
  import opened CoreSubmit
  import opened CoreLifecycle
  import opened FlowReaders
  import opened Operations
  import opened Steps
  import opened FanIn
  import opened FanInSubmit
  import opened FanInRuns
  import opened SideIndex
  import Descendants

  // -- Submitting ---------------------------------------------------------------------------

  lemma AddJobKeepsExact(s: QueueState, job: Job, now: Time)
    requires Core(s) && Flow(s) && Exact(s) && IsNew(job) && job.parentId.None? && NotReused(s, job.id)
    ensures Exact(AddJob(s, job, now).state)
  {
    AddJobCases(s, job, now);
    var t := AddJob(s, job, now).state;
    var owner := FindDeduplicationOwner(s, job, now);
    if t == s {
    } else if owner.Some? && t == ExtendExpiration(s, job, owner.value, now) {
      ExtendIsSteady(s, job, owner.value, now);
      SteadyKeepsExact(s, t, {});
    } else if owner.None? {
      InsertKeepsExact(s, job);
    } else {
      ReplacedExact(s, owner.value, PreserveExpiration(job, s.jobs[owner.value]));
    }
  }

  lemma ExtendIsSteady(s: QueueState, candidate: Job, id: JobId, now: Time)
    ensures Steady(s, ExtendExpiration(s, candidate, id, now))
  {
    if ExtendExpiration(s, candidate, id, now) != s {
      RewrittenIsSteady(s, id, s.jobs[id].(deduplicationExpiresAt := DeduplicationExpiration(candidate.options, now)));
    }
  }

  /** A standalone job makes room for another. */
  lemma ReplacedExact(s: QueueState, ownerId: JobId, job: Job)
    requires Core(s) && Flow(s) && Exact(s) && ownerId in s.jobs && s.jobs[ownerId].parentId.None?
    requires IsNew(job) && (job.id == ownerId || (job.id !in s.jobs && Unlisted(s, job.id)))
    ensures Exact(Insert(Remove(s, ownerId), job))
  {
    RemoveIsRemoveAll(s, ownerId);
    RemoveAllIsSteady(s, {ownerId});
    SteadyKeepsExact(s, Remove(s, ownerId), {});
    OwnerGoneKeepsFlow(s, ownerId);
    OwnerGoneUnlisted(s, ownerId, job.id);
    InsertKeepsExact(Remove(s, ownerId), job);
  }

  lemma AddKeepsExact(s: QueueState, spec: JobSpec, uuid: JobId, now: Time)
    requires Core(s) && Flow(s) && Exact(s) && uuid != "" && NotReused(s, NewJob(s.queue, spec, uuid, now).id)
    ensures Exact(Add(s, spec, uuid, now).state)
  {
    if spec.options.ValidAt(now) {
      NewJobIsNew(s.queue, spec, uuid, now);
      AddJobKeepsExact(s, NewJob(s.queue, spec, uuid, now), now);
    }
  }

  lemma {:induction false} AddJobsKeepsExact(s: QueueState, jobs: seq<Job>, now: Time)
    requires Core(s) && Flow(s) && Exact(s)
    requires forall k | 0 <= k < |jobs| :: IsNew(jobs[k]) && jobs[k].parentId.None? && NotReused(s, jobs[k].id)
    ensures Exact(AddJobs(s, jobs, now).state)
    decreases |jobs|
  {
    if jobs != [] {
      var n := |jobs| - 1;
      AddJobsKeepsExact(s, jobs[..n], now);
      AddJobsKeepsFlow(s, jobs[..n], now);
      AddJobsKeeps(s, jobs[..n], now);
      AddJobsKeepNotReused(s, jobs[..n], now, jobs[n].id);
      AddJobKeepsExact(AddJobs(s, jobs[..n], now).state, jobs[n], now);
    }
  }

  lemma {:induction false} AddJobsKeepNotReused(s: QueueState, jobs: seq<Job>, now: Time, id: JobId)
    requires Core(s) && Flow(s) && NotReused(s, id)
    requires forall k | 0 <= k < |jobs| :: IsNew(jobs[k]) && jobs[k].parentId.None? && NotReused(s, jobs[k].id)
    ensures NotReused(AddJobs(s, jobs, now).state, id)
    decreases |jobs|
  {
    if jobs != [] {
      var n := |jobs| - 1;
      AddJobsKeepNotReused(s, jobs[..n], now, id);
      AddJobsKeepsFlow(s, jobs[..n], now);
      AddJobKeepsNotReused(AddJobs(s, jobs[..n], now).state, jobs[n], now, id);
    }
  }

  lemma AddManyKeepsExact(s: QueueState, specs: seq<JobSpec>, uuids: seq<JobId>, now: Time)
    requires Core(s) && Flow(s) && Exact(s) && |specs| == |uuids| && "" !in uuids
    requires forall k | 0 <= k < |specs| :: NotReused(s, NewJob(s.queue, specs[k], uuids[k], now).id)
    ensures Exact(AddMany(s, specs, uuids, now).state)
  {
    if forall k | 0 <= k < |specs| :: specs[k].options.ValidAt(now) {
      var jobs := NewJobs(s.queue, specs, uuids, now);
      forall k | 0 <= k < |jobs| ensures IsNew(jobs[k]) && jobs[k].parentId.None? && NotReused(s, jobs[k].id) {
        NewJobIsNew(s.queue, specs[k], uuids[k], now);
      }
      AddJobsKeepsExact(s, jobs, now);
    }
  }

  // -- Flows -------------------------------------------------------------------------------------

  lemma SameFlowIsSteady(s: QueueState, t: QueueState)
    requires OnlyExpirations(s, t) && t.flowDependencies == s.flowDependencies
    ensures Steady(s, t)
  {
    forall c | c in t.jobs ensures t.jobs[c].childIds == s.jobs[c].childIds && EntryOf(t.jobs[c]) == EntryOf(s.jobs[c]) {
      assert t.jobs[c] == s.jobs[c].(deduplicationExpiresAt := t.jobs[c].deduplicationExpiresAt);
    }
  }

  /** A parent about to list more children: only the newcomers are open. */
  lemma LinkedIsOpen(s: QueueState, parentId: JobId, parent: Job, joining: seq<Job>)
    requires Core(s) && Exact(s) && parentId in s.jobs && EntryOf(parent) == EntryOf(s.jobs[parentId])
    requires forall c :: c in parent.childIds <==> c in s.jobs[parentId].childIds || c in Ids(joining)
    requires forall c | c in Ids(joining) && c !in s.jobs :: c !in s.jobs[parentId].childIds
    requires forall p, c | p in s.jobs && p != parentId && c in Ids(joining) && c !in s.jobs :: c !in s.jobs[p].childIds
    ensures Unattached(Put(s, parentId, parent), parentId, joining)
    ensures ExactUpTo(Put(s, parentId, parent), OpenPairs(parentId, joining))
  {
    var t := Put(s, parentId, parent);
    assert forall c | EntryIn(IndexOf(s, parentId), c) != Absent :: c in s.jobs[parentId].childIds;
    forall p, c | p in t.jobs && c in t.jobs[p].childIds && c in t.jobs ensures Agrees(t, p, c, OpenPairs(parentId, joining)) {
      if p == parentId && c !in s.jobs[parentId].childIds {
        assert EntryIn(IndexOf(t, p), c) == Absent;
      } else {
        assert Agrees(s, p, c, {});
      }
    }
  }

  lemma JoinFlowKeepsExact(s: QueueState, parentId: JobId, parent: Job, joining: seq<Job>, now: Time)
    requires Core(s) && Flow(s) && MayJoin(s, parentId, joining) && AreChildren(parentId, joining)
    requires parentId in s.jobs && IsJoiningParent(s, parentId, parent, joining)
    requires WellFormedJob(parentId, parent) && ListsAtLeast(s, parentId, parent)
    requires parent.lockToken.None? || parent.lockToken == s.jobs[parentId].lockToken
    requires parent.enqueuedSeq == s.jobs[parentId].enqueuedSeq
    requires Unattached(Put(s, parentId, parent), parentId, joining)
    requires ExactUpTo(Put(s, parentId, parent), OpenPairs(parentId, joining))
    ensures Exact(JoinFlow(s, parentId, parent, joining, now))
  {
    var linked := Put(s, parentId, parent);
    PutKeeps(s, parentId, parent);
    AttachedExact(linked, parentId, joining);
    JoinAttachedFlow(s, parentId, parent, joining);
    var attached := AttachChildren(linked, parentId, joining);
    ReleaseParentIsSteady(attached, parentId, now);
    SteadyKeepsExact(attached, ReleaseParent(attached, parentId, now), {});
  }

  /** Children that passed the attach check: new ones are not listed yet. */
  lemma NewcomersUnlisted(s: QueueState, parentId: JobId, listed: seq<JobId>, children: seq<Job>, joining: seq<Job>)
    requires FirstConflict(s, parentId, listed, children).None?
    requires forall x | x in joining :: x in children
    ensures forall c | c in Ids(joining) && c !in s.jobs :: c !in listed
  {
    NoConflictMeans(s, parentId, listed, children);
    forall c | c in Ids(joining) && c !in s.jobs ensures c !in listed {
      var k :| 0 <= k < |joining| && Ids(joining)[k] == c;
      assert joining[k] in joining && joining[k] in children;
      var j :| 0 <= j < |children| && children[j] == joining[k];
      assert AttachConflict(s, parentId, listed, children[j].id).None?;
    }
  }

  /** The stored parent as `parent` (apart from its list), with the scanned children joining. */
  lemma GrownFlowKeepsExact(s: QueueState, parentId: JobId, children: seq<Job>, parked: bool, now: Time)
    requires Core(s) && Flow(s) && Exact(s) && parentId in s.jobs && AreChildren(parentId, children) && MayJoin(s, parentId, children)
    requires FirstConflict(s, parentId, s.jobs[parentId].childIds, children).None?
    requires parked ==> s.jobs[parentId].state == Active
    ensures var scan := ScanDeduplication(s, children, {}, now);
            var joining := Unskipped(children, scan.skipped);
            var stored := if parked then Parked(scan.state.jobs[parentId]) else scan.state.jobs[parentId];
            && Exact(scan.state)
            && Exact(JoinFlow(scan.state, parentId, stored.(childIds := AppendNew(s.jobs[parentId].childIds, Ids(joining))), joining, now))
  {
    var listed := s.jobs[parentId].childIds;
    var scan := ScanDeduplication(s, children, {}, now);
    var joining := Unskipped(children, scan.skipped);
    ScanPreparesJoin(s, parentId, children, {}, now);
    SameFlowIsSteady(s, scan.state);
    SteadyKeepsExact(s, scan.state, {});
    UnskippedAreChildren(parentId, children, scan.skipped);
    NewcomersUnlisted(s, parentId, listed, children, joining);
    GrownJoinKeepsExact(scan.state, parentId, joining, parked, now);
  }

  lemma GrownJoinKeepsExact(s: QueueState, parentId: JobId, joining: seq<Job>, parked: bool, now: Time)
    requires Core(s) && Flow(s) && Exact(s) && parentId in s.jobs && AreChildren(parentId, joining) && MayJoin(s, parentId, joining)
    requires parked ==> s.jobs[parentId].state == Active
    requires forall c | c in Ids(joining) && c !in s.jobs :: c !in s.jobs[parentId].childIds
    requires forall k, p | 0 <= k < |joining| && p in s.jobs && p != parentId :: joining[k].id !in s.jobs[p].childIds
    ensures var stored := if parked then Parked(s.jobs[parentId]) else s.jobs[parentId];
            Exact(JoinFlow(s, parentId, stored.(childIds := AppendNew(s.jobs[parentId].childIds, Ids(joining))), joining, now))
  {
    var listed := s.jobs[parentId].childIds;
    assert WellFormedJob(parentId, s.jobs[parentId]);
    AppendNewContains(listed, Ids(joining));
    var stored := if parked then Parked(s.jobs[parentId]) else s.jobs[parentId];
    var parent := stored.(childIds := AppendNew(listed, Ids(joining)));
    OthersDoNotList(s, parentId, joining);
    LinkedIsOpen(s, parentId, parent, joining);
    JoinFlowKeepsExact(s, parentId, parent, joining, now);
  }

  lemma OthersDoNotList(s: QueueState, parentId: JobId, joining: seq<Job>)
    requires forall k, p | 0 <= k < |joining| && p in s.jobs && p != parentId :: joining[k].id !in s.jobs[p].childIds
    ensures forall p, c | p in s.jobs && p != parentId && c in Ids(joining) && c !in s.jobs :: c !in s.jobs[p].childIds
  {
    forall p, c | p in s.jobs && p != parentId && c in Ids(joining) ensures c !in s.jobs[p].childIds {
      var k :| 0 <= k < |joining| && Ids(joining)[k] == c;
      assert joining[k].id !in s.jobs[p].childIds;
    }
  }

  lemma AddFlowToExistingKeepsExact(s: QueueState, parentId: JobId, children: seq<Job>, now: Time)
    requires Core(s) && Flow(s) && Exact(s) && parentId in s.jobs && AreChildren(parentId, children) && MayJoin(s, parentId, children)
    ensures Exact(AddFlowToExisting(s, parentId, children, now).state)
  {
    if FirstConflict(s, parentId, s.jobs[parentId].childIds, children).None? {
      GrownFlowKeepsExact(s, parentId, children, false, now);
    }
  }

  lemma ParkBehindKeepsExact(s: QueueState, parentId: JobId, children: seq<Job>, now: Time)
    requires Core(s) && Flow(s) && Exact(s) && AreChildren(parentId, children) && MayJoin(s, parentId, children)
    requires parentId in s.jobs && s.jobs[parentId].state == Active
    ensures Exact(ParkBehind(s, parentId, children, now).state)
  {
    if FirstConflict(s, parentId, s.jobs[parentId].childIds, children).None? {
      GrownFlowKeepsExact(s, parentId, children, true, now);
    }
  }

  /** The same for a root stored anew. */
  lemma StoredIsOpen(s: QueueState, t: QueueState, id: JobId, joining: seq<Job>)
    requires Indexes(s) && Exact(s) && id !in s.jobs && Unlisted(s, id)
    requires id in t.jobs && t.jobs == s.jobs[id := t.jobs[id]] && t.flowDependencies == s.flowDependencies
    requires t.jobs[id].childIds == Ids(joining)
    requires forall p, c | p in s.jobs && p != id && c in Ids(joining) && c !in s.jobs :: c !in s.jobs[p].childIds
    ensures Unattached(t, id, joining) && ExactUpTo(t, OpenPairs(id, joining))
  {
    assert IndexOf(t, id) == EMPTY_INDEX;
    forall p, c | p in t.jobs && c in t.jobs[p].childIds && c in t.jobs ensures Agrees(t, p, c, OpenPairs(id, joining)) {
      if p != id { assert Agrees(s, p, c, {}); }
    }
  }

  lemma StartedIsOpen(s: QueueState, root: Job, joining: seq<Job>)
    requires Core(s) && Exact(s) && root.id !in s.jobs && Unlisted(s, root.id) && root.childIds == Ids(joining)
    requires forall p, c | p in s.jobs && p != root.id && c in Ids(joining) && c !in s.jobs :: c !in s.jobs[p].childIds
    ensures Unattached(Insert(s, root), root.id, joining)
    ensures ExactUpTo(Insert(s, root), OpenPairs(root.id, joining))
  {
    InsertStores(s, root);
    StoredIsOpen(s, Insert(s, root), root.id, joining);
  }

  lemma StartFlowKeepsExact(s: QueueState, root: Job, joining: seq<Job>, now: Time)
    requires Core(s) && Flow(s) && Exact(s) && MayJoin(s, root.id, joining) && AreChildren(root.id, joining)
    requires root.id !in s.jobs && IsJoiningParent(s, root.id, root, joining) && root.childIds == Ids(joining)
    requires WellFormedJob(root.id, root) && root.state != Active && root.enqueuedSeq == 0
    ensures Exact(StartFlow(s, root, joining, now))
  {
    OthersDoNotList(s, root.id, joining);
    StartedIsOpen(s, root, joining);
    InsertKeeps(s, root);
    AttachedExact(Insert(s, root), root.id, joining);
    StartAttachedFlow(s, root, joining);
    var attached := AttachChildren(Insert(s, root), root.id, joining);
    ReleaseParentIsSteady(attached, root.id, now);
    SteadyKeepsExact(attached, ReleaseParent(attached, root.id, now), {});
  }

  lemma AddNewFlowKeepsExact(s: QueueState, parent: Job, children: seq<Job>, now: Time)
    requires Core(s) && Flow(s) && Exact(s) && parent.id !in s.jobs && IsNew(parent) && parent.parentId.None?
    requires AreChildren(parent.id, children) && MayJoin(s, parent.id, children)
    ensures Exact(AddNewFlow(s, parent, children, now).state)
  {
    var owner := FindDeduplicationOwner(s, parent, now);
    if owner.Some? {
      ExtendIsSteady(s, parent, owner.value, now);
      SteadyKeepsExact(s, ExtendExpiration(s, parent, owner.value, now), {});
    } else if FirstConflict(s, parent.id, [], children).None? {
      var taken := if ActiveDeduplicationId(parent, now).Some? then {ActiveDeduplicationId(parent, now).value} else {};
      var scan := ScanDeduplication(s, children, taken, now);
      var joining := Unskipped(children, scan.skipped);
      ScanPreparesJoin(s, parent.id, children, taken, now);
      SameFlowIsSteady(s, scan.state);
      SteadyKeepsExact(s, scan.state, {});
      var root := RootJob(parent, joining, now);
      if !scan.conflict && RepeatKeysFree(scan.state, [root] + Unstored(scan.state, joining)) {
        RootJobWellFormed(parent, joining, now);
        StartFlowKeepsExact(scan.state, root, joining, now);
      }
    }
  }

  lemma AddFlowKeepsExact(s: QueueState, spec: JobSpec, uuid: JobId, specs: seq<JobSpec>, uuids: seq<JobId>, now: Time)
    requires Core(s) && Flow(s) && Exact(s) && |specs| == |uuids| && uuid != "" && "" !in uuids
    requires var root := NewJob(s.queue, spec, uuid, now).id; MayJoin(s, root, ChildJobs(s.queue, root, specs, uuids, now))
    ensures Exact(AddFlow(s, spec, uuid, specs, uuids, now).state)
  {
    if spec.options.ValidAt(now) && forall k | 0 <= k < |specs| :: specs[k].options.ValidAt(now) {
      var parent := NewJob(s.queue, spec, uuid, now);
      NewJobIsNew(s.queue, spec, uuid, now);
      var children := ChildJobs(s.queue, parent.id, specs, uuids, now);
      if NoDuplicates([parent.id] + Ids(children)) {
        ChildJobsAreChildren(s.queue, parent.id, specs, uuids, now);
        if parent.id in s.jobs { AddFlowToExistingKeepsExact(s, parent.id, children, now); }
        else { AddNewFlowKeepsExact(s, parent, children, now); }
      }
    }
  }

  lemma AddFlowChildrenKeepsExact(s: QueueState, id: JobId, token: Token, specs: seq<JobSpec>, uuids: seq<JobId>, now: Time)
    requires Core(s) && Flow(s) && Exact(s) && |specs| == |uuids| && "" !in uuids
    requires MayJoin(s, id, ChildJobs(s.queue, id, specs, uuids, now))
    ensures Exact(AddFlowChildren(s, id, token, specs, uuids, now).state)
  {
    AddFlowChildrenCases(s, id, token, specs, uuids, now);
    if AddFlowChildren(s, id, token, specs, uuids, now).state != s {
      ParkBehindKeepsExact(s, id, ChildJobs(s.queue, id, specs, uuids, now), now);
    }
  }

  // -- Claiming and finishing -----------------------------------------------------------------------

  lemma QueuedAllIsSteady(s: QueueState, t: QueueState, ids: seq<JobId>)
    requires QueuedAll(s, t, ids) && forall id | id in ids :: id in s.jobs && s.jobs[id].state == Delayed
    ensures Steady(s, t)
  {
    forall c | c in t.jobs ensures t.jobs[c].childIds == s.jobs[c].childIds && EntryOf(t.jobs[c]) == EntryOf(s.jobs[c]) {
      if c in ids { assert s.jobs[c].state == Delayed; }
    }
  }

  lemma PromoteDueIsSteady(s: QueueState, now: Time)
    ensures Steady(s, PromoteDue(s, now).state)
  {
    var due := Sorted(DueRanks(s, now), DueRanks(s, now).Keys);
    PromoteEachFrame(s, due);
    QueuedAllIsSteady(s, PromoteEach(s, due), due);
  }

  lemma ClaimIsSteady(s: QueueState, worker: string, token: Token, leaseFor: Duration, now: Time)
    ensures Steady(s, ClaimNext(s, worker, token, leaseFor, now).state)
  {
    if !s.paused {
      PromoteDueIsSteady(s, now);
      var promoted := PromoteDue(s, now).state;
      var id := Claimable(promoted);
      if id.Some? {
        assert IsClaimable(promoted, id.value);
        var job := Claimed(promoted.jobs[id.value], worker, token, leaseFor, now);
        RewrittenIsSteady(promoted, id.value, job);
        SteadyTransitive(s, promoted, Put(promoted, id.value, job));
      }
    }
  }

  lemma LeaseOpsAreSteady(s: QueueState, id: JobId, token: Token, d: Duration, now: Time)
    ensures Steady(s, Renew(s, id, token, d, now).state)
    ensures Steady(s, DelayActive(s, id, token, d, now).state)
    ensures Steady(s, ReleaseActive(s, id, token, now).state)
  {
    if RequireLease(s, id, token).None? {
      RewrittenIsSteady(s, id, Renew(s, id, token, d, now).reply.value);
      RewrittenIsSteady(s, id, DelayActive(s, id, token, d, now).reply.value);
      RewrittenIsSteady(s, id, ReleaseActive(s, id, token, now).reply.value);
    }
  }

  lemma CompleteKeepsExact(s: QueueState, id: JobId, token: Token, value: Value, uuid: JobId, cronNext: Option<Time>, now: Time)
    requires Core(s) && Flow(s) && Exact(s) && uuid != "" && uuid !in s.jobs && Unlisted(s, uuid)
    ensures Exact(Complete(s, id, token, value, uuid, cronNext, now).state)
  {
    if Complete(s, id, token, value, uuid, cronNext, now).reply.Ok? {
      assert WellFormedJob(id, s.jobs[id]);
      var completed := CompletedJob(s.jobs[id], value, now);
      FinishIsExact(s, id, completed, now);
      FinishKeeps(s, id, completed, now);
      FinishKeepsFlow(s, id, completed, now);
      FinishUnlisted(s, id, completed, now, uuid);
      var retained := RetainFinished(RecordWithParent(Put(s, id, completed), completed), id, completed, now);
      SucceedsExactly(s.queue, retained, completed, uuid, cronNext, now);
    }
  }

  /** The repeat successor and the release of the parent. */
  lemma SucceedsExactly(queue: string, s: QueueState, completed: Job, uuid: JobId, cronNext: Option<Time>, now: Time)
    requires Core(s) && FlowUpTo(s, ParentSet(completed)) && Exact(s) && WellFormedJob(completed.id, completed)
    requires uuid != "" && uuid !in s.jobs && Unlisted(s, uuid)
    ensures var next := NextRepeatJob(queue, completed, uuid, cronNext, now);
            var succeeded := if next.Some? then Insert(s, next.value) else s;
            Exact(if completed.parentId.Some? then ReleaseParent(succeeded, completed.parentId.value, now) else succeeded)
  {
    var next := NextRepeatJob(queue, completed, uuid, cronNext, now);
    var succeeded := if next.Some? then Insert(s, next.value) else s;
    if next.Some? {
      NextRepeatJobIsNew(queue, completed, uuid, cronNext, now);
      InsertKeepsExact(s, next.value);
      InsertKeepsFlow(s, next.value, ParentSet(completed));
      InsertKeeps(s, next.value);
    }
    if completed.parentId.Some? {
      ReleaseParentIsSteady(succeeded, completed.parentId.value, now);
      SteadyKeepsExact(succeeded, ReleaseParent(succeeded, completed.parentId.value, now), {});
    }
  }

  lemma FailKeepsExact(s: QueueState, id: JobId, token: Token, error: string, allowRetry: bool, backoff: Duration, now: Time)
    requires Core(s) && Flow(s) && Exact(s)
    ensures Exact(Fail(s, id, token, error, allowRetry, backoff, now).state)
  {
    if RequireLease(s, id, token).None? {
      assert WellFormedJob(id, s.jobs[id]);
      if allowRetry && ShouldRetry(s.jobs[id]) {
        RewrittenIsSteady(s, id, RetryingJob(s.jobs[id], error, backoff, now));
        SteadyKeepsExact(s, Put(s, id, RetryingJob(s.jobs[id], error, backoff, now)), {});
      } else {
        var failed := FailedJob(s.jobs[id], error, now);
        FinishIsExact(s, id, failed, now);
        FinishKeeps(s, id, failed, now);
        FinishKeepsFlow(s, id, failed, now);
        FailureIsPoliced(s, id, failed, now);
        var retained := RetainFinished(RecordWithParent(Put(s, id, failed), failed), id, failed, now);
        ReactIsSteady(retained, failed, now);
        SteadyKeepsExact(retained, React(retained, failed, now), {});
      }
    }
  }

  // -- Recovery ------------------------------------------------------------------------------------------

  ghost function OpenForAll(failures: seq<Job>): set<(JobId, JobId)>
  {
    if failures == [] then {} else OpenForAll(failures[..|failures| - 1]) + OpenFor(failures[|failures| - 1])
  }

  lemma {:induction false} OpenForMember(failures: seq<Job>, x: Job)
    requires x in failures
    ensures OpenFor(x) <= OpenForAll(failures)
    decreases |failures|
  {
    var n := |failures| - 1;
    assert failures == failures[..n] + [failures[n]];
    if x != failures[n] { OpenForMember(failures[..n], x); }
  }

  lemma RecoverEachExact(s: QueueState, ids: seq<JobId>, now: Time)
    requires Core(s) && Flow(s) && Exact(s) && NoDuplicates(ids) && forall id | id in ids :: id in s.jobs && s.jobs[id].state == Active
    ensures var t := RecoverEach(s, ids, now); ExactUpTo(t, OpenForAll(FailedAmong(t, ids)))
  {
    var t := RecoverEach(s, ids, now);
    RecoverEachFrame(s, ids, now);
    forall p, c | p in t.jobs && c in t.jobs[p].childIds && c in t.jobs ensures Agrees(t, p, c, OpenForAll(FailedAmong(t, ids))) {
      RecoveredAgrees(s, t, ids, now, p, c);
    }
  }

  lemma RecoveredEntry(s: QueueState, t: QueueState, ids: seq<JobId>, now: Time, x: JobId)
    requires RecoveredAll(s, t, ids, now) && x in s.jobs && (x in ids ==> s.jobs[x].state == Active)
    ensures t.jobs[x].childIds == s.jobs[x].childIds && t.jobs[x].parentId == s.jobs[x].parentId && t.jobs[x].id == s.jobs[x].id
    ensures EntryOf(t.jobs[x]) == EntryOf(s.jobs[x]) || (x in ids && t.jobs[x].state == Failed && EntryOf(s.jobs[x]) == Absent)
  {
    if x in ids { assert RecoveredFrom(s.jobs[x], t.jobs[x], now); }
  }

  lemma FailedIsOpen(t: QueueState, ids: seq<JobId>, p: JobId, c: JobId)
    requires c in ids && c in t.jobs && t.jobs[c].state == Failed && t.jobs[c].parentId == Some(p) && t.jobs[c].id == c
    ensures (p, c) in OpenForAll(FailedAmong(t, ids))
  {
    FailedAmongMeans(t, ids);
    OpenForMember(FailedAmong(t, ids), t.jobs[c]);
  }

  lemma RecoveredAgrees(s: QueueState, t: QueueState, ids: seq<JobId>, now: Time, p: JobId, c: JobId)
    requires Core(s) && Linked(s) && Exact(s) && RecoveredAll(s, t, ids, now)
    requires forall id | id in ids :: id in s.jobs && s.jobs[id].state == Active
    requires p in t.jobs && c in t.jobs[p].childIds && c in t.jobs
    ensures Agrees(t, p, c, OpenForAll(FailedAmong(t, ids)))
  {
    RecoveredEntry(s, t, ids, now, p);
    RecoveredEntry(s, t, ids, now, c);
    assert Agrees(s, p, c, {});
    assert WellFormedJob(c, s.jobs[c]);
    if c in ids && t.jobs[c].state == Failed { FailedIsOpen(t, ids, p, c); }
  }

  /** The records of failures, while they last, are the failures. */
  ghost predicate StillRecorded(s: QueueState, failures: seq<Job>)
  {
    forall k | 0 <= k < |failures| && failures[k].id in s.jobs :: s.jobs[failures[k].id] == failures[k]
  }

  lemma SettleFailureExact(s: QueueState, failed: Job, now: Time, open: set<(JobId, JobId)>)
    requires Core(s) && ExactUpTo(s, open) && (failed.id in s.jobs ==> s.jobs[failed.id] == failed)
    ensures ExactUpTo(SettleFailure(s, failed, now), open - OpenFor(failed))
  {
    RecordWithParentSettles(s, failed, open);
    var recorded := RecordWithParent(s, failed);
    RecordWithParentIsCalm(s, failed);
    if failed.options.FailedRetention().Some? {
      ApplyRetentionIsSteady(recorded, Failed, failed.options.FailedRetention().value, now);
      SteadyKeepsExact(recorded, SettleFailure(s, failed, now), open - OpenFor(failed));
    }
  }

  lemma {:induction false} SettleFailuresExact(s: QueueState, failures: seq<Job>, now: Time, open: set<(JobId, JobId)>)
    requires Core(s) && ExactUpTo(s, open) && StillRecorded(s, failures)
    requires forall k | 0 <= k < |failures| :: failures[k].state == Failed
    ensures ExactUpTo(SettleFailures(s, failures, now), open - OpenForAll(failures))
    decreases |failures|
  {
    if failures == [] {
      assert open - OpenForAll(failures) == open;
    } else {
      var n := |failures| - 1;
      var before := SettleFailures(s, failures[..n], now);
      forall k | 0 <= k < n && failures[..n][k].id in s.jobs ensures s.jobs[failures[..n][k].id] == failures[..n][k] {
        assert failures[..n][k] == failures[k];
      }
      SettleFailuresExact(s, failures[..n], now, open);
      SettleFailuresIsCalm(s, failures[..n], now);
      if failures[n].id in before.jobs {
        assert CalmJob(s.jobs[failures[n].id], before.jobs[failures[n].id]);
      }
      SettleFailureExact(before, failures[n], now, open - OpenForAll(failures[..n]));
      assert open - OpenForAll(failures[..n]) - OpenFor(failures[n]) == open - OpenForAll(failures);
    }
  }

  lemma AfterRecoveryExact(s: QueueState, failures: seq<Job>, now: Time)
    requires Core(s) && Structure(s) && AllMayFailOutright(s, failures) && AllFailedRecords(s, failures)
    requires ExactUpTo(s, OpenForAll(failures))
    ensures Exact(AfterRecovery(s, failures, now))
  {
    var removed := RemoveAll(s, RemovedAtOnce(failures));
    RemoveAllIsSteady(s, RemovedAtOnce(failures));
    RemoveAllIsCalm(s, RemovedAtOnce(failures));
    SteadyKeepsExact(s, removed, OpenForAll(failures));
    CalmKeepsStructure(s, removed);
    CalmKeepsMayFail(s, removed, failures);
    SettleFailuresExact(removed, failures, now, OpenForAll(failures));
    assert OpenForAll(failures) - OpenForAll(failures) == {};
    var settled := SettleFailures(removed, failures, now);
    SettleFailuresIsCalm(removed, failures, now);
    CalmKeepsStructure(removed, settled);
    CalmKeepsMayFail(removed, settled, failures);
    ReactionsAreSteady(settled, failures, now);
    SteadyKeepsExact(settled, Reactions(settled, failures, now), {});
  }

  lemma RecoverStalledKeepsExact(s: QueueState, now: Time)
    requires Core(s) && Flow(s) && Exact(s)
    ensures Exact(RecoverStalled(s, now).state)
  {
    var stalled := Sorted(StalledRanks(s, now), StalledRanks(s, now).Keys);
    var recovered := RecoverEach(s, stalled, now);
    RecoverEachKeeps(s, stalled, now);
    RecoverEachKeepsFlow(s, stalled, now);
    RecoverEachExact(s, stalled, now);
    var failures := FailedAmong(recovered, stalled);
    FailuresAreRecords(recovered, stalled);
    FailuresMayFail(recovered, failures);
    AfterRecoveryExact(recovered, failures, now);
  }

  // -- Management -------------------------------------------------------------------------------------------

  /**
    What a caller can check before retrying a child: its retained parent is
    neither active nor finished, or has nothing indexed for it.
   */
  predicate RetryIsClean(s: QueueState, id: JobId)
  {
    id in s.jobs && s.jobs[id].parentId.Some? && s.jobs[id].parentId.value in s.jobs
      && id in s.jobs[s.jobs[id].parentId.value].childIds
    ==> var p := s.jobs[id].parentId.value;
        p == id || (s.jobs[p].state != Active && !s.jobs[p].state.IsTerminal()) || EntryIn(IndexOf(s, p), id) == Absent
  }

  /** The pairs of every child but `id` agree. */
  ghost predicate OthersAgree(s: QueueState, id: JobId)
  {
    forall p, c | p in s.jobs && c in s.jobs[p].childIds && c in s.jobs && c != id :: Agrees(s, p, c, {})
  }

  /** `id` is waiting again, and only parent `p`, if anyone, lists it. */
  ghost predicate Revived(s: QueueState, p: JobId, id: JobId)
  {
    && Indexes(s) && OthersAgree(s, id) && id in s.jobs && s.jobs[id].state == Waiting
    && forall q | q in s.jobs && id in s.jobs[q].childIds :: q == p
  }

  lemma StoredOthersAgree(s: QueueState, t: QueueState, id: JobId)
    requires Indexes(s) && Exact(s) && id in s.jobs && id in t.jobs && t.jobs[id].childIds == s.jobs[id].childIds
    requires t.jobs == s.jobs[id := t.jobs[id]] && t.flowDependencies == s.flowDependencies
    ensures Indexes(t) && OthersAgree(t, id)
  {
    forall p, c | p in t.jobs && c in t.jobs[p].childIds && c in t.jobs && c != id ensures Agrees(t, p, c, {}) {
      assert Agrees(s, p, c, {});
    }
  }

  lemma RetryRevives(s: QueueState, id: JobId, now: Time)
    requires Core(s) && Linked(s) && Exact(s) && id in s.jobs
    ensures var t := PutInOrder(ForgetReleasedOwner(s, id, s.jobs[id]), id, RetriedJob(s.jobs[id], now));
            Indexes(t) && OthersAgree(t, id)
  {
    PutInOrderStores(ForgetReleasedOwner(s, id, s.jobs[id]), id, RetriedJob(s.jobs[id], now));
    StoredOthersAgree(s, PutInOrder(ForgetReleasedOwner(s, id, s.jobs[id]), id, RetriedJob(s.jobs[id], now)), id);
  }

  lemma RevivedExactIff(s: QueueState, p: JobId, id: JobId)
    requires Revived(s, p, id)
    ensures Exact(s) <==> (p in s.jobs && id in s.jobs[p].childIds ==> EntryIn(IndexOf(s, p), id) == Absent)
  {
    if p in s.jobs && id in s.jobs[p].childIds { assert Exact(s) ==> Agrees(s, p, id, {}); }
    if p in s.jobs && id in s.jobs[p].childIds ==> EntryIn(IndexOf(s, p), id) == Absent {
      forall q, c | q in s.jobs && c in s.jobs[q].childIds && c in s.jobs ensures Agrees(s, q, c, {}) {}
    }
  }

  lemma RestoredExact(s: QueueState, p: JobId, id: JobId)
    requires Revived(s, p, id) && p in s.jobs && id in s.jobs[p].childIds
    requires s.jobs[p].state != Active && !s.jobs[p].state.IsTerminal()
    ensures Exact(RestoreParent(s, p, id))
  {
    var cleared := ClearChildDependency(s, p, id);
    ClearEntry(s, p, id);
    forall q, c | q in s.jobs && c in s.jobs[q].childIds && c in s.jobs ensures Agrees(cleared, q, c, {}) {
      if c != id { assert Agrees(s, q, c, {}); }
    }
    RewrittenIsSteady(cleared, p, Parked(s.jobs[p]));
    SteadyKeepsExact(cleared, RestoreParent(s, p, id), {});
  }

  lemma RetriedIsRevived(s: QueueState, id: JobId, now: Time)
    requires Core(s) && Linked(s) && Exact(s) && id in s.jobs
    ensures Revived(PutInOrder(ForgetReleasedOwner(s, id, s.jobs[id]), id, RetriedJob(s.jobs[id], now)),
                    if s.jobs[id].parentId.Some? then s.jobs[id].parentId.value else "", id)
  {
    RetryRevives(s, id, now);
    var t := PutInOrder(ForgetReleasedOwner(s, id, s.jobs[id]), id, RetriedJob(s.jobs[id], now));
    forall q | q in t.jobs && id in t.jobs[q].childIds ensures s.jobs[id].parentId == Some(q) {
      assert id in s.jobs[q].childIds;
    }
  }

  /** Retrying a finished job keeps the index exact if and only if the retry is clean. */
  lemma RetryKeepsExactIff(s: QueueState, id: JobId, now: Time)
    requires Core(s) && Linked(s) && Exact(s) && Retry(s, id, now).reply.Ok?
    ensures Exact(Retry(s, id, now).state) <==> RetryIsClean(s, id)
  {
    var waiting := PutInOrder(ForgetReleasedOwner(s, id, s.jobs[id]), id, RetriedJob(s.jobs[id], now));
    PutInOrderStores(ForgetReleasedOwner(s, id, s.jobs[id]), id, RetriedJob(s.jobs[id], now));
    RetriedIsRevived(s, id, now);
    RevivedThenRestored(s, waiting, id);
  }

  lemma RevivedThenRestored(s: QueueState, t: QueueState, id: JobId)
    requires Core(s) && Exact(s) && id in s.jobs && Revived(t, if s.jobs[id].parentId.Some? then s.jobs[id].parentId.value else "", id)
    requires t.jobs == s.jobs[id := t.jobs[id]] && t.flowDependencies == s.flowDependencies && t.jobs[id].childIds == s.jobs[id].childIds
    ensures Exact(if s.jobs[id].parentId.Some? then RestoreParent(t, s.jobs[id].parentId.value, id) else t) <==> RetryIsClean(s, id)
  {
    var p := if s.jobs[id].parentId.Some? then s.jobs[id].parentId.value else "";
    forall x | x in s.jobs ensures x != "" { assert WellFormedJob(x, s.jobs[x]); }
    RevivedExactIff(t, p, id);
    if s.jobs[id].parentId.Some? && p in s.jobs && id in s.jobs[p].childIds && t.jobs[p].state != Active && !t.jobs[p].state.IsTerminal() {
      RestoredExact(t, p, id);
    }
  }

  lemma StoredIsSteady(s: QueueState, id: JobId, t: QueueState)
    requires id in s.jobs && id in t.jobs && t.jobs == s.jobs[id := t.jobs[id]] && t.flowDependencies == s.flowDependencies
    requires t.jobs[id].childIds == s.jobs[id].childIds && EntryOf(t.jobs[id]) == EntryOf(s.jobs[id])
    ensures Steady(s, t)
  {
    forall c | c in t.jobs ensures EntryOf(t.jobs[c]) == EntryOf(s.jobs[c]) {}
  }

  lemma MovesAreSteady(s: QueueState, id: JobId, delay: Duration, now: Time)
    ensures Steady(s, Promote(s, id, now).state) && Steady(s, Reschedule(s, id, delay, now).state)
  {
    if Promote(s, id, now).reply.Ok? { StoredIsSteady(s, id, Promote(s, id, now).state); }
    if Reschedule(s, id, delay, now).reply.Ok? { StoredIsSteady(s, id, Reschedule(s, id, delay, now).state); }
  }

  lemma SetPriorityIsSteady(s: QueueState, id: JobId, priority: nat, lifo: Option<bool>)
    ensures Steady(s, SetPriority(s, id, priority, lifo).state)
  {
    if SetPriority(s, id, priority, lifo).reply.Ok? {
      var options := s.jobs[id].options.(priority := priority, lifo := if lifo.Some? then lifo.value else s.jobs[id].options.lifo);
      PutInOrderStores(s, id, s.jobs[id].(priority := priority, options := options));
      StoredIsSteady(s, id, SetPriority(s, id, priority, lifo).state);
    }
  }

  lemma SaveStacktraceIsSteady(s: QueueState, id: JobId, reason: string)
    ensures Steady(s, SaveStacktrace(s, id, reason).state)
  {
    if id in s.jobs { RewrittenIsSteady(s, id, s.jobs[id].(failedReason := Some(reason))); }
  }

  lemma RemoveJobKeepsExact(s: QueueState, id: JobId, now: Time)
    requires Core(s) && Flow(s) && Exact(s)
    ensures Exact(RemoveJob(s, id, now).state)
  {
    if id in s.jobs {
      var removed := Remove(s, id);
      RemoveIsRemoveAll(s, id);
      RemoveAllIsSteady(s, {id});
      SteadyKeepsExact(s, removed, {});
      RemoveIsCalm(s, id);
      CalmKeepsStructure(s, removed);
      if s.jobs[id].parentId.Some? {
        ReleaseParentIsSteady(removed, s.jobs[id].parentId.value, now);
        SteadyKeepsExact(removed, ReleaseParent(removed, s.jobs[id].parentId.value, now), {});
      }
    }
  }

  lemma RemoveAllAndReleaseKeepsExact(s: QueueState, ids: seq<JobId>, now: Time)
    requires Core(s) && Flow(s) && Exact(s)
    ensures Exact(RemoveAllAndRelease(s, ids, now))
  {
    var removed := RemoveAll(s, Elements(ids));
    RemoveAllIsSteady(s, Elements(ids));
    SteadyKeepsExact(s, removed, {});
    RemoveAllIsCalm(s, Elements(ids));
    CalmKeepsStructure(s, removed);
    ReleaseParentsIsSteady(removed, ParentsOf(s, ids), now);
    SteadyKeepsExact(removed, RemoveAllAndRelease(s, ids, now), {});
  }

  lemma RemoveUnprocessedChildrenKeepsExact(s: QueueState, p: JobId, now: Time)
    requires Core(s) && Flow(s) && Exact(s)
    ensures Exact(RemoveUnprocessedChildren(s, p, now).state)
  {
    if p in s.jobs {
      var ids := Elements(Descendants.Walk(s.jobs, s.jobs[p].childIds, {}).out);
      var removed := RemoveAll(s, ids);
      RemoveAllIsSteady(s, ids);
      SteadyKeepsExact(s, removed, {});
      RemoveAllIsCalm(s, ids);
      CalmKeepsStructure(s, removed);
      ReleaseParentIsSteady(removed, p, now);
      SteadyKeepsExact(removed, ReleaseParent(removed, p, now), {});
    }
  }

  lemma DetachedExact(s: QueueState, p: JobId, c: JobId)
    requires Core(s) && Exact(s) && p in s.jobs && c in s.jobs
    ensures Exact(Detached(s, p, c))
  {
    var t := Detached(s, p, c);
    forall q, x | q in t.jobs && x in t.jobs[q].childIds && x in t.jobs ensures Agrees(t, q, x, {}) {
      DetachedAgrees(s, p, c, q, x);
    }
  }

  lemma DetachedPair(s: QueueState, p: JobId, c: JobId, q: JobId, x: JobId)
    requires Indexes(s) && p in s.jobs && c in s.jobs
    requires var t := Detached(s, p, c); q in t.jobs && x in t.jobs[q].childIds && x in t.jobs
    ensures q in s.jobs && x in s.jobs && x in s.jobs[q].childIds && (q == p ==> x != c)
    ensures EntryOf(Detached(s, p, c).jobs[x]) == EntryOf(s.jobs[x])
  {
    WithoutContains(s.jobs[p].childIds, c);
    DetachedFrame(s, p, c);
  }

  lemma DetachedAgrees(s: QueueState, p: JobId, c: JobId, q: JobId, x: JobId)
    requires Core(s) && Exact(s) && p in s.jobs && c in s.jobs
    requires var t := Detached(s, p, c); q in t.jobs && x in t.jobs[q].childIds && x in t.jobs
    ensures Agrees(Detached(s, p, c), q, x, {})
  {
    DetachedPair(s, p, c, q, x);
    DetachedIndex(s, p, c);
    assert Agrees(s, q, x, {});
  }

  lemma DetachedIndex(s: QueueState, p: JobId, c: JobId)
    requires Indexes(s) && p in s.jobs && c in s.jobs
    ensures var t := Detached(s, p, c);
            && (forall q | q != p :: IndexOf(t, q) == IndexOf(s, q))
            && (forall x | x != c :: EntryIn(IndexOf(t, p), x) == EntryIn(IndexOf(s, p), x))
  {
    ClearEntry(s, p, c);
    var unlisted := Put(s, p, s.jobs[p].(childIds := Without(s.jobs[p].childIds, c)));
    assert ClearChildDependency(unlisted, p, c).flowDependencies == ClearChildDependency(s, p, c).flowDependencies;
  }

  lemma RemoveChildDependencyKeepsExact(s: QueueState, c: JobId, now: Time)
    requires Core(s) && Flow(s) && Exact(s)
    ensures Exact(RemoveChildDependency(s, c, now).state)
  {
    if RemoveChildDependency(s, c, now).reply == Ok(true) {
      var p := s.jobs[c].parentId.value;
      DetachedExact(s, p, c);
      DetachedKeeps(s, p, c);
      DetachedKeepsFlow(s, p, c);
      ReleaseParentIsSteady(Detached(s, p, c), p, now);
      SteadyKeepsExact(Detached(s, p, c), ReleaseParent(Detached(s, p, c), p, now), {});
    }
  }

  lemma UpsertRepeatKeepsExact(s: QueueState, spec: JobSpec, uuid: JobId, now: Time)
    requires Core(s) && Flow(s) && Exact(s) && uuid != "" && NotReused(s, NewJob(s.queue, spec, uuid, now).id)
    ensures Exact(UpsertRepeat(s, spec, uuid, now).state)
  {
    if UpsertRepeat(s, spec, uuid, now).reply.Ok? {
      var job := NewJob(s.queue, spec, uuid, now);
      NewJobIsNew(s.queue, spec, uuid, now);
      var owner := Find(s, RepeatOwners(s, job.repeatKey.value));
      if owner.Some? { ReplacedExact(s, owner.value, job); } else { InsertKeepsExact(s, job); }
    }
  }

  lemma CleanAndDrainKeepExact(s: QueueState, state: JobState, grace: Duration, limit: nat, includeDelayed: bool, now: Time)
    requires Core(s) && Flow(s) && Exact(s)
    ensures Exact(Clean(s, state, grace, limit, now).state) && Exact(Drain(s, includeDelayed, now).state)
  {
    var ranks := CleanRanks(s, state, Earlier(now, grace));
    RemoveAllAndReleaseKeepsExact(s, Take(Sorted(ranks, ranks.Keys), limit), now);
    var drained := DrainRanks(s, includeDelayed);
    RemoveAllAndReleaseKeepsExact(s, Sorted(drained, drained.Keys), now);
  }

  // -- Every operation ----------------------------------------------------------------------------------------

  lemma RewriteIsSteady(s: QueueState, op: Op)
    requires op.TouchesOne()
    ensures Steady(s, Rewrite(s, op).state)
  {
    if op.OpRenew? || op.OpDelayActive? || op.OpReleaseActive? {
      GivenUpIsSteady(s, op);
    } else if op.OpPromote? || op.OpReschedule? || op.OpSetPriority? || op.OpSaveStacktrace? {
      ManagedIsSteady(s, op);
    } else {
      assert Rewrite(s, op).state.jobs == s.jobs || Rewrite(s, op).state.jobs == map[];
    }
  }

  lemma GivenUpIsSteady(s: QueueState, op: Op)
    requires op.OpRenew? || op.OpDelayActive? || op.OpReleaseActive?
    ensures Steady(s, Rewrite(s, op).state)
  {
    match op
    case OpRenew(id, token, leaseFor, now) => LeaseOpsAreSteady(s, id, token, leaseFor, now);
    case OpDelayActive(id, token, delay, now) => LeaseOpsAreSteady(s, id, token, delay, now);
    case OpReleaseActive(id, token, now) => LeaseOpsAreSteady(s, id, token, 0, now);
  }

  lemma ManagedIsSteady(s: QueueState, op: Op)
    requires op.OpPromote? || op.OpReschedule? || op.OpSetPriority? || op.OpSaveStacktrace?
    ensures Steady(s, Rewrite(s, op).state)
  {
    match op
    case OpPromote(id, now) => MovesAreSteady(s, id, 0, now);
    case OpReschedule(id, delay, now) => MovesAreSteady(s, id, delay, now);
    case OpSetPriority(id, priority, lifo, now) => SetPriorityIsSteady(s, id, priority, lifo);
    case OpSaveStacktrace(id, reason, now) => SaveStacktraceIsSteady(s, id, reason);
  }

  lemma SubmitKeepsExact(s: QueueState, op: Op)
    requires Core(s) && Flow(s) && Exact(s) && op.WellFormed() && FreshIds(s, op) && Respectful(s, op)
    requires op.Submits()
    ensures Exact(Submission(s, op).state)
  {
    match op
    case OpAdd(spec, uuid, now) => AddKeepsExact(s, spec, uuid, now);
    case OpAddMany(specs, uuids, now) => AddManyKeepsExact(s, specs, uuids, now);
    case OpAddFlow(parent, uuid, specs, uuids, now) => AddFlowKeepsExact(s, parent, uuid, specs, uuids, now);
    case OpAddFlowChildren(id, token, specs, uuids, now) => AddFlowChildrenKeepsExact(s, id, token, specs, uuids, now);
    case OpUpsertRepeat(spec, uuid, now) => UpsertRepeatKeepsExact(s, spec, uuid, now);
  }

  lemma RemovalKeepsExact(s: QueueState, op: Op)
    requires Core(s) && Flow(s) && Exact(s) && op.CleansUp()
    ensures Exact(Removal(s, op).state)
  {
    match op
    case OpRemoveUnprocessedChildren(id, now) => RemoveUnprocessedChildrenKeepsExact(s, id, now);
    case OpRemoveChildDependency(id, now) => RemoveChildDependencyKeepsExact(s, id, now);
    case OpRemove(id, now) => RemoveJobKeepsExact(s, id, now);
    case OpRemoveRepeat(key, now) =>
      var owner := Find(s, RepeatOwners(s, key));
      if owner.Some? { RemoveJobKeepsExact(s, owner.value, now); }
    case OpClean(state, grace, limit, now) => CleanAndDrainKeepExact(s, state, grace, limit, false, now);
    case OpDrain(includeDelayed, now) => CleanAndDrainKeepExact(s, Waiting, 0, 0, includeDelayed, now);
  }

  lemma WorkKeepsExact(s: QueueState, op: Op)
    requires Core(s) && Flow(s) && Exact(s) && op.Works() && op.WellFormed() && FreshIds(s, op) && Respectful(s, op)
    ensures (op.OpRetry? && Work(s, op).success ==> RetryIsClean(s, op.id)) <==> Exact(Work(s, op).state)
  {
    match op
    case OpPromoteDue(now) => PromoteDueIsSteady(s, now); SteadyKeepsExact(s, Work(s, op).state, {});
    case OpClaim(worker, token, leaseFor, now) => ClaimIsSteady(s, worker, token, leaseFor, now); SteadyKeepsExact(s, Work(s, op).state, {});
    case OpComplete(id, token, value, uuid, cronNext, now) => CompleteKeepsExact(s, id, token, value, uuid, cronNext, now);
    case OpFail(id, token, error, allowRetry, backoff, now) => FailKeepsExact(s, id, token, error, allowRetry, backoff, now);
    case OpRecoverStalled(now) => RecoverStalledKeepsExact(s, now);
    case OpRetry(id, now) => if Work(s, op).success { RetryKeepsExactIff(s, id, now); }
  }

  /** Every operation keeps the index exact; a retry does so exactly when it is clean. */
  lemma StepKeepsExact(s: QueueState, op: Op)
    requires Core(s) && Flow(s) && Exact(s) && op.WellFormed() && FreshIds(s, op) && Respectful(s, op)
    ensures (op.OpRetry? && Step(s, op).success ==> RetryIsClean(s, op.id)) <==> Exact(Step(s, op).state)
  {
    if op.Submits() {
      SubmitKeepsExact(s, op);
    } else if op.CleansUp() {
      RemovalKeepsExact(s, op);
    } else if op.TouchesOne() {
      RewriteIsSteady(s, op);
      SteadyKeepsExact(s, Rewrite(s, op).state, {});
    } else {
      WorkKeepsExact(s, op);
    }
  }

  /** Every retry along the run was clean. */
  ghost predicate CleanRetries(s: QueueState, ops: seq<Op>)
    requires forall k | 0 <= k < |ops| :: ops[k].WellFormed()
    decreases |ops|
  {
    ops == [] || ((ops[0].OpRetry? && Step(s, ops[0]).success ==> RetryIsClean(s, ops[0].id))
                  && CleanRetries(Step(s, ops[0]).state, ops[1..]))
  }

  lemma {:induction false} RunKeepsExact(s: QueueState, ops: seq<Op>)
    requires forall k | 0 <= k < |ops| :: ops[k].WellFormed()
    requires Core(s) && Flow(s) && Exact(s) && RespectfulRun(s, ops) && CleanRetries(s, ops)
    ensures Core(Run(s, ops)) && Exact(Run(s, ops))
    decreases |ops|
  {
    if ops != [] {
      StepKeepsCore(s, ops[0]);
      StepKeepsFlow(s, ops[0]);
      StepKeepsExact(s, ops[0]);
      RunKeepsExact(Step(s, ops[0]).state, ops[1..]);
    }
  }

  // -- What exactness buys ----------------------------------------------------------------------------------------

  /** In every reachable state the readers' precondition holds. */
  lemma CoreIsReadable(s: QueueState, p: JobId)
    requires Core(s) && p in s.jobs
    ensures Readable(s.jobs[p], s.jobs, IndexOf(s, p))
    ensures forall c | IndexOf(s, p).Contains(c) :: c in s.jobs[p].childIds
  {
    assert WellFormedJob(p, s.jobs[p]);
    if p in s.flowDependencies { assert WellFormedIndex(s.flowDependencies[p], s.jobs[p].childIds); }
    forall id | id in s.jobs ensures s.jobs[id].id == id && (s.jobs[id].state == Completed ==> s.jobs[id].returnValue.Some?) {
      assert WellFormedJob(id, s.jobs[id]);
    }
  }

  lemma ExactMember(s: QueueState, p: JobId, kind: DependencyKind, c: JobId)
    requires Core(s) && Exact(s) && p in s.jobs && forall x | x in s.jobs[p].childIds :: x in s.jobs
    ensures c in Bucket(s.jobs[p], s.jobs, IndexOf(s, p), kind) <==> c in Bucket(s.jobs[p], s.jobs, EMPTY_INDEX, kind)
  {
    CoreIsReadable(s, p);
    if c in s.jobs[p].childIds {
      assert Agrees(s, p, c, {}) && WellFormedJob(c, s.jobs[c]);
      AgreedMember(s.jobs[p], s.jobs, IndexOf(s, p), kind, c);
    }
  }

  lemma AgreedMember(parent: Job, jobs: map<JobId, Job>, index: DependencyIndex, kind: DependencyKind, c: JobId)
    requires c in parent.childIds && c in jobs && EntryIn(index, c) == EntryOf(jobs[c]) && Disjoint(index) && jobs[c].options.Valid()
    ensures c in Bucket(parent, jobs, index, kind) <==> c in Bucket(parent, jobs, EMPTY_INDEX, kind)
  {
  }

  lemma ExactBucket(s: QueueState, p: JobId, kind: DependencyKind)
    requires Core(s) && Exact(s) && p in s.jobs && forall c | c in s.jobs[p].childIds :: c in s.jobs
    ensures Bucket(s.jobs[p], s.jobs, IndexOf(s, p), kind) == Bucket(s.jobs[p], s.jobs, EMPTY_INDEX, kind)
  {
    forall c ensures c in Bucket(s.jobs[p], s.jobs, IndexOf(s, p), kind) <==> c in Bucket(s.jobs[p], s.jobs, EMPTY_INDEX, kind) {
      ExactMember(s, p, kind, c);
    }
  }

  /** While all children are retained, the index-first counts are a recount of the child records. */
  lemma CountsAreARecount(s: QueueState, p: JobId)
    requires Core(s) && Exact(s) && p in s.jobs && forall c | c in s.jobs[p].childIds :: c in s.jobs
    ensures Counts(s.jobs[p], s.jobs, IndexOf(s, p)) == Counts(s.jobs[p], s.jobs, EMPTY_INDEX)
  {
    var index, childIds := IndexOf(s, p), s.jobs[p].childIds;
    CoreIsReadable(s, p);
    forall kind ensures Bucket(s.jobs[p], s.jobs, index, kind) == Bucket(s.jobs[p], s.jobs, EMPTY_INDEX, kind) {
      ExactBucket(s, p, kind);
    }
    SameCounts(s.jobs[p], s.jobs, index, s.jobs, EMPTY_INDEX);
  }

  /** Equal buckets and equally many missing children make equal counts. */
  lemma SameCounts(parent: Job, jobs: map<JobId, Job>, index: DependencyIndex, others: map<JobId, Job>, other: DependencyIndex)
    requires NoDuplicates(parent.childIds)
    requires forall kind :: Bucket(parent, jobs, index, kind) == Bucket(parent, others, other, kind)
    requires Recorded(jobs, index, parent.childIds, Missing) == Recorded(others, other, parent.childIds, Missing)
    ensures Counts(parent, jobs, index) == Counts(parent, others, other)
  {
    forall kind ensures Counts(parent, jobs, index).Of(kind) == Counts(parent, others, other).Of(kind) {
      CountsAreBucketSizes(parent, jobs, index, kind);
      CountsAreBucketSizes(parent, others, other, kind);
    }
    var a, b := Counts(parent, jobs, index), Counts(parent, others, other);
    assert a.Of(Processed) == b.Of(Processed) && a.Of(Unprocessed) == b.Of(Unprocessed)
        && a.Of(Failure) == b.Of(Failure) && a.Of(Ignored) == b.Of(Ignored);
    CountsFromRecords(jobs, index, parent.childIds);
    CountsFromRecords(others, other, parent.childIds);
  }

  /** The record of an indexed child is never looked at. */
  lemma IndexedRecordsUnread(parent: Job, jobs: map<JobId, Job>, index: DependencyIndex, ids: set<JobId>)
    requires NoDuplicates(parent.childIds) && forall c | c in ids && c in jobs && c in parent.childIds :: index.Contains(c)
    ensures Counts(parent, jobs - ids, index) == Counts(parent, jobs, index)
  {
    forall standing ensures Recorded(jobs - ids, index, parent.childIds, standing) == Recorded(jobs, index, parent.childIds, standing) {}
    SameCounts(parent, jobs - ids, index, jobs, index);
  }

  /**
    Removing any set of records, as clean, drain and retention do, leaves all of
    a parent's counts as they were, provided that those among its children
    completed, were ignored or continued, or fail their parent.
   */
  lemma RemovalKeepsCounts(s: QueueState, p: JobId, ids: set<JobId>)
    requires Core(s) && Exact(s) && p in s.jobs && p !in ids
    requires forall c | c in ids && c in s.jobs && c in s.jobs[p].childIds :: EntryOf(s.jobs[c]) != Absent
    ensures var t := RemoveAll(s, ids);
            p in t.jobs && Counts(t.jobs[p], t.jobs, IndexOf(t, p)) == Counts(s.jobs[p], s.jobs, IndexOf(s, p))
  {
    var parent, index := s.jobs[p], IndexOf(s, p);
    assert WellFormedJob(p, parent);
    forall c | c in ids && c in s.jobs && c in parent.childIds ensures index.Contains(c) { assert Agrees(s, p, c, {}); }
    IndexedRecordsUnread(parent, s.jobs, index, ids);
  }
}
