/**
  What submitting a flow stores, what parking behind more children does to a
  running parent, and what detaching a child leaves, read off the fields of the
  records. Flows here are plain: under fresh ids, without deduplication or
  repetition.
 */
module FlowOutcomes {
  import opened Ordering
  import opened JobTypes
  import opened QueueModel
  import opened CoreInvariant
  import opened CoreSubmit
  import opened Operations
  import opened FanIn
  import opened FanInSubmit
  import opened ParentOutcomes
  import opened CompletionOutcomes
  import opened ClaimOutcomes
  import opened SubmissionOutcomes
  import opened Admission
  import opened ManagementOutcomes
  import Descendants

  /** A valid job that owns nothing but its id. */
  ghost predicate IsPlain(spec: JobSpec, now: Time)
  {
    MayBeSubmitted(spec.options, now) && spec.options.deduplication.None? && spec.options.repeat.None?
  }

  /** The ids of a submission, with one generated id each. */
  function SubmittedIds(specs: seq<JobSpec>, uuids: seq<JobId>): (ids: seq<JobId>)
    requires |specs| == |uuids|
    ensures |ids| == |specs| && forall k | 0 <= k < |specs| :: ids[k] == SubmittedId(specs[k], uuids[k])
  {
    seq(|specs|, k requires 0 <= k < |specs| => SubmittedId(specs[k], uuids[k]))
  }

  /** Plain jobs under distinct ids that nobody has. */
  ghost predicate IsPlainFlow(s: QueueState, parentId: JobId, specs: seq<JobSpec>, uuids: seq<JobId>, now: Time)
    requires |specs| == |uuids|
  {
    && (forall k | 0 <= k < |specs| :: IsPlain(specs[k], now))
    && NoDuplicates([parentId] + SubmittedIds(specs, uuids))
    && (forall k | 0 <= k < |specs| :: SubmittedId(specs[k], uuids[k]) !in s.jobs)
  }

  /** A child stored as submitted, below its parent and behind all that was queued. */
  predicate IsStoredChild(s: QueueState, t: QueueState, parentId: JobId, spec: JobSpec, uuid: JobId, now: Time)
  {
    var id := SubmittedId(spec, uuid);
    && id in t.jobs && t.jobs[id].parentId == Some(parentId) && BehindAll(s, t.jobs[id])
    && IsSubmitted(s.queue, spec, uuid, None, t.jobs[id].(parentId := None), now)
  }

  /** All children are stored, and nothing happened to anybody but them and their parent. */
  ghost predicate StoresChildren(s: QueueState, t: QueueState, parentId: JobId, specs: seq<JobSpec>, uuids: seq<JobId>, now: Time)
    requires |specs| == |uuids|
  {
    && (forall k | 0 <= k < |specs| :: IsStoredChild(s, t, parentId, specs[k], uuids[k], now))
    && (forall x | x in s.jobs && x != parentId :: x in t.jobs && t.jobs[x] == s.jobs[x])
    && (forall x | x in t.jobs :: x in s.jobs || x == parentId || x in SubmittedIds(specs, uuids))
  }

  // -- Nothing stands in the way ------------------------------------------------------------------------

  /** Jobs that own nothing but ids nobody has. */
  ghost predicate AreFreshPlain(s: QueueState, parentId: JobId, children: seq<Job>)
  {
    && AreChildren(parentId, children)
    && forall k | 0 <= k < |children| :: children[k].id !in s.jobs && children[k].options.deduplication.None? && children[k].repeatKey.None?
  }

  lemma {:induction false} NothingIsScanned(s: QueueState, children: seq<Job>, taken: set<string>, now: Time)
    requires forall k | 0 <= k < |children| :: children[k].options.deduplication.None?
    ensures ScanDeduplication(s, children, taken, now) == Scan(s, {}, taken, false)
    decreases |children|
  {
    if children != [] { NothingIsScanned(s, children[..|children| - 1], taken, now); }
  }

  lemma {:induction false} NobodyIsSkipped(children: seq<Job>)
    ensures Unskipped(children, {}) == children
    decreases |children|
  {
    if children != [] {
      var n := |children| - 1;
      NobodyIsSkipped(children[..n]);
      assert children == children[..n] + [children[n]];
    }
  }

  lemma {:induction false} UnstoredArePlain(s: QueueState, children: seq<Job>)
    requires forall k | 0 <= k < |children| :: children[k].repeatKey.None?
    ensures forall c | c in Unstored(s, children) :: c.repeatKey.None?
    decreases |children|
  {
    if children != [] { UnstoredArePlain(s, children[..|children| - 1]); }
  }

  lemma PlainKeysAreFree(s: QueueState, jobs: seq<Job>)
    requires forall c | c in jobs :: c.repeatKey.None?
    ensures RepeatKeysFree(s, jobs)
  {
  }

  lemma {:induction false} NothingConflicts(s: QueueState, parentId: JobId, listed: seq<JobId>, children: seq<Job>)
    requires forall k | 0 <= k < |children| :: children[k].id !in s.jobs && children[k].id !in listed
    ensures FirstConflict(s, parentId, listed, children).None?
    decreases |children|
  {
    if children != [] { NothingConflicts(s, parentId, listed, children[..|children| - 1]); }
  }

  lemma {:induction false} NewIdsAreAppended(ids: seq<JobId>, more: seq<JobId>)
    requires NoDuplicates(more) && forall x | x in more :: x !in ids
    ensures AppendNew(ids, more) == ids + more
    decreases |more|
  {
    if more != [] {
      var n := |more| - 1;
      assert more == more[..n] + [more[n]];
      NewIdsAreAppended(ids, more[..n]);
    }
  }

  // -- A new flow ---------------------------------------------------------------------------------------

  lemma PlainIsValid(specs: seq<JobSpec>, now: Time)
    requires forall k | 0 <= k < |specs| :: IsPlain(specs[k], now)
    ensures forall k | 0 <= k < |specs| :: specs[k].options.ValidAt(now)
  {
    forall k | 0 <= k < |specs| ensures specs[k].options.ValidAt(now) { OptionsAreValidIff(specs[k].options, now); }
  }

  /** The children of a plain submission. */
  lemma ChildrenAreFreshPlain(s: QueueState, parentId: JobId, specs: seq<JobSpec>, uuids: seq<JobId>, now: Time)
    requires |specs| == |uuids| && "" !in uuids && IsPlainFlow(s, parentId, specs, uuids, now)
    ensures AreFreshPlain(s, parentId, ChildJobs(s.queue, parentId, specs, uuids, now))
    ensures Ids(ChildJobs(s.queue, parentId, specs, uuids, now)) == SubmittedIds(specs, uuids)
  {
    var children := ChildJobs(s.queue, parentId, specs, uuids, now);
    assert Ids(children) == SubmittedIds(specs, uuids);
    PlainIsValid(specs, now);
    ChildJobsAreChildren(s.queue, parentId, specs, uuids, now);
  }

  /** Children stored one after the other are what was submitted. */
  lemma AttachedAreStored(s: QueueState, linked: QueueState, t: QueueState, parentId: JobId, specs: seq<JobSpec>, uuids: seq<JobId>, now: Time)
    requires |specs| == |uuids| && "" !in uuids && IsPlainFlow(s, parentId, specs, uuids, now)
    requires AttachedAll(linked, t, parentId, ChildJobs(s.queue, parentId, specs, uuids, now))
    requires AttachedBehind(s, t, ChildJobs(s.queue, parentId, specs, uuids, now))
    requires parentId in linked.jobs && linked.jobs == s.jobs[parentId := linked.jobs[parentId]]
    ensures StoresChildren(s, t, parentId, specs, uuids, now)
    ensures parentId in t.jobs && t.jobs[parentId] == linked.jobs[parentId]
  {
    ChildrenAreFreshPlain(s, parentId, specs, uuids, now);
    ParentIsNoChild(parentId, SubmittedIds(specs, uuids));
    forall k | 0 <= k < |specs| ensures IsStoredChild(s, t, parentId, specs[k], uuids[k], now) {
      AttachedIsStored(s, linked, t, parentId, specs, uuids, now, k);
    }
    OthersStay(s, linked, t, parentId, ChildJobs(s.queue, parentId, specs, uuids, now));
  }

  lemma ParentIsNoChild(parentId: JobId, ids: seq<JobId>)
    requires NoDuplicates([parentId] + ids)
    ensures parentId !in ids
  {
    var all := [parentId] + ids;
    forall k | 0 <= k < |ids| ensures ids[k] != parentId { assert all[0] == parentId && all[k + 1] == ids[k]; }
  }

  lemma OthersStay(s: QueueState, linked: QueueState, t: QueueState, parentId: JobId, children: seq<Job>)
    requires AttachedAll(linked, t, parentId, children) && parentId !in Ids(children)
    requires forall k | 0 <= k < |children| :: children[k].id !in s.jobs
    requires parentId in linked.jobs && linked.jobs == s.jobs[parentId := linked.jobs[parentId]]
    ensures parentId in t.jobs && t.jobs[parentId] == linked.jobs[parentId]
    ensures forall x | x in s.jobs && x != parentId :: x in t.jobs && t.jobs[x] == s.jobs[x]
    ensures forall x | x in t.jobs :: x in s.jobs || x == parentId || x in Ids(children)
  {
    forall k | 0 <= k < |children| ensures Ids(children)[k] !in s.jobs {}
  }

  lemma AttachedIsStored(s: QueueState, linked: QueueState, t: QueueState, parentId: JobId, specs: seq<JobSpec>, uuids: seq<JobId>, now: Time, k: nat)
    requires |specs| == |uuids| && k < |specs| && "" !in uuids && IsPlainFlow(s, parentId, specs, uuids, now)
    requires AttachedAll(linked, t, parentId, ChildJobs(s.queue, parentId, specs, uuids, now))
    requires AttachedBehind(s, t, ChildJobs(s.queue, parentId, specs, uuids, now))
    requires parentId in linked.jobs && linked.jobs == s.jobs[parentId := linked.jobs[parentId]]
    ensures IsStoredChild(s, t, parentId, specs[k], uuids[k], now)
  {
    var children := ChildJobs(s.queue, parentId, specs, uuids, now);
    ChildrenAreFreshPlain(s, parentId, specs, uuids, now);
    assert IsAttached(linked, t, parentId, children[k]) && BehindAll(s, t.jobs[children[k].id]);
    NewJobIsSubmitted(s.queue, specs[k], uuids[k], now);
  }

  /** Attached children queue up behind everything. */
  ghost predicate AttachedBehind(s: QueueState, t: QueueState, children: seq<Job>)
  {
    t.sequence >= s.sequence && forall k | 0 <= k < |children| :: children[k].id in t.jobs && BehindAll(s, t.jobs[children[k].id])
  }

  lemma {:induction false} AttachQueuesBehind(s: QueueState, u: QueueState, parentId: JobId, children: seq<Job>)
    requires AreFreshPlain(u, parentId, children) && u.sequence >= s.sequence
    ensures AttachedBehind(s, AttachChildren(u, parentId, children), children)
    decreases |children|
  {
    if children != [] {
      var n := |children| - 1;
      FewerAreFreshPlain(u, parentId, children);
      AttachQueuesBehind(s, u, parentId, children[..n]);
      NotYetAttached(u, parentId, children[..n], children[n].id);
      AttachNextBehind(s, AttachChildren(u, parentId, children[..n]), children[..n], parentId, children[n]);
      assert children == children[..n] + [children[n]];
    }
  }

  lemma NotYetAttached(u: QueueState, parentId: JobId, children: seq<Job>, id: JobId)
    requires AreChildren(parentId, children) && id !in Ids(children) && id !in u.jobs
    ensures id !in AttachChildren(u, parentId, children).jobs
  {
    AttachFrame(u, parentId, children);
  }

  lemma FewerAreFreshPlain(u: QueueState, parentId: JobId, children: seq<Job>)
    requires AreFreshPlain(u, parentId, children) && children != []
    ensures var n := |children| - 1; AreFreshPlain(u, parentId, children[..n]) && children[n].id !in Ids(children[..n]) && children[n].id !in u.jobs
  {
    LastChildIsNew(parentId, children);
  }

  lemma AttachNextBehind(s: QueueState, t: QueueState, children: seq<Job>, parentId: JobId, child: Job)
    requires AttachedBehind(s, t, children) && child.id !in t.jobs
    ensures AttachedBehind(s, AttachChild(t, parentId, child), children + [child])
  {
    InsertStores(t, child);
    InsertQueues(t, child);
  }

  lemma InsertQueues(s: QueueState, job: Job)
    ensures Insert(s, job).sequence >= s.sequence && BehindAll(s, Insert(s, job).jobs[job.id])
  {
  }

  /** A parent with children that just joined is blocked by them. */
  lemma NewChildrenBlock(s: QueueState, t: QueueState, parentId: JobId, specs: seq<JobSpec>, uuids: seq<JobId>, now: Time)
    requires |specs| == |uuids| && specs != [] && StoresChildren(s, t, parentId, specs, uuids, now)
    requires parentId in t.jobs && forall x | x in SubmittedIds(specs, uuids) :: x in t.jobs[parentId].childIds
    ensures ReleaseParent(t, parentId, now) == t
  {
    if IsParked(t, parentId) {
      var id := SubmittedIds(specs, uuids)[0];
      assert IsStoredChild(s, t, parentId, specs[0], uuids[0], now);
      assert id in t.jobs[parentId].childIds && id in Unfinished(t);
      ReleaseDecides(t, parentId, now);
    }
  }

  /** The root of a new flow: as submitted, and waiting for its children if it has any. */
  predicate IsRoot(s: QueueState, spec: JobSpec, uuid: JobId, root: Job, childIds: seq<JobId>, now: Time)
  {
    && root.childIds == childIds
    && (childIds != [] ==> root.state == WaitingChildren)
    && (childIds == [] ==> root.state == (if ScheduleFor(spec, now) > now then Delayed else Waiting))
    && IsSubmitted(s.queue, spec, uuid, None, root.(childIds := [], state := if ScheduleFor(spec, now) > now then Delayed else Waiting), now)
  }

  /** A plain flow is stored as submitted: the root waits for its children, and each of these names the root. */
  lemma FlowAnswers(s: QueueState, spec: JobSpec, uuid: JobId, specs: seq<JobSpec>, uuids: seq<JobId>, now: Time)
    requires |specs| == |uuids| && uuid != "" && "" !in uuids
    requires IsPlain(spec, now) && IsPlainFlow(s, SubmittedId(spec, uuid), specs, uuids, now) && SubmittedId(spec, uuid) !in s.jobs
    ensures var o, root := AddFlow(s, spec, uuid, specs, uuids, now), SubmittedId(spec, uuid);
            && o.reply.Ok? && root in o.state.jobs && o.reply.value.parent == o.state.jobs[root]
            && IsRoot(s, spec, uuid, o.state.jobs[root], SubmittedIds(specs, uuids), now)
            && StoresChildren(s, o.state, root, specs, uuids, now)
  {
    var parent := NewJob(s.queue, spec, uuid, now);
    var children := ChildJobs(s.queue, parent.id, specs, uuids, now);
    NewJobIsSubmitted(s.queue, spec, uuid, now);
    ChildrenAreFreshPlain(s, parent.id, specs, uuids, now);
    NewFlowStarts(s, parent, children, now);
    FlowIsStored(s, spec, uuid, specs, uuids, now);
    PlainFlowIsNew(s, spec, uuid, specs, uuids, now);
  }

  lemma PlainFlowIsNew(s: QueueState, spec: JobSpec, uuid: JobId, specs: seq<JobSpec>, uuids: seq<JobId>, now: Time)
    requires |specs| == |uuids| && uuid != "" && "" !in uuids
    requires IsPlain(spec, now) && IsPlainFlow(s, SubmittedId(spec, uuid), specs, uuids, now) && SubmittedId(spec, uuid) !in s.jobs
    ensures var parent := NewJob(s.queue, spec, uuid, now);
            AddFlow(s, spec, uuid, specs, uuids, now) == AddNewFlow(s, parent, ChildJobs(s.queue, parent.id, specs, uuids, now), now)
  {
    OptionsAreValidIff(spec.options, now);
    PlainIsValid(specs, now);
    NewJobIsSubmitted(s.queue, spec, uuid, now);
    assert Ids(ChildJobs(s.queue, SubmittedId(spec, uuid), specs, uuids, now)) == SubmittedIds(specs, uuids);
  }

  lemma NewFlowStarts(s: QueueState, parent: Job, children: seq<Job>, now: Time)
    requires AreFreshPlain(s, parent.id, children) && parent.options.deduplication.None? && parent.repeatKey.None?
    ensures var root := RootJob(parent, children, now);
            var started := StartFlow(s, root, children, now);
            var o := AddNewFlow(s, parent, children, now);
            && o.state == started && o.reply.Ok? && (root.id in started.jobs ==> o.reply.value.parent == started.jobs[root.id])
  {
    NothingConflicts(s, parent.id, [], children);
    NothingIsScanned(s, children, {}, now);
    NobodyIsSkipped(children);
    UnstoredArePlain(s, children);
    PlainKeysAreFree(s, [RootJob(parent, children, now)] + Unstored(s, children));
  }

  lemma FlowIsStored(s: QueueState, spec: JobSpec, uuid: JobId, specs: seq<JobSpec>, uuids: seq<JobId>, now: Time)
    requires |specs| == |uuids| && uuid != "" && "" !in uuids
    requires IsPlain(spec, now) && IsPlainFlow(s, SubmittedId(spec, uuid), specs, uuids, now) && SubmittedId(spec, uuid) !in s.jobs
    ensures var id := SubmittedId(spec, uuid);
            var children := ChildJobs(s.queue, id, specs, uuids, now);
            var t := StartFlow(s, RootJob(NewJob(s.queue, spec, uuid, now), children, now), children, now);
            && id in t.jobs && IsRoot(s, spec, uuid, t.jobs[id], SubmittedIds(specs, uuids), now) && StoresChildren(s, t, id, specs, uuids, now)
  {
    var id := SubmittedId(spec, uuid);
    var children := ChildJobs(s.queue, id, specs, uuids, now);
    var root := RootJob(NewJob(s.queue, spec, uuid, now), children, now);
    NewJobIsSubmitted(s.queue, spec, uuid, now);
    ChildrenAreFreshPlain(s, id, specs, uuids, now);
    InsertStores(s, root);
    InsertQueues(s, root);
    assert IsRoot(s, spec, uuid, Insert(s, root).jobs[id], SubmittedIds(specs, uuids), now);
    ChildrenAreStored(s, Insert(s, root), id, specs, uuids, now);
  }

  lemma ChildrenAreStored(s: QueueState, linked: QueueState, parentId: JobId, specs: seq<JobSpec>, uuids: seq<JobId>, now: Time)
    requires |specs| == |uuids| && "" !in uuids && IsPlainFlow(s, parentId, specs, uuids, now)
    requires parentId in linked.jobs && linked.jobs == s.jobs[parentId := linked.jobs[parentId]] && linked.sequence >= s.sequence
    requires forall x | x in SubmittedIds(specs, uuids) :: x in linked.jobs[parentId].childIds
    requires specs == [] ==> linked.jobs[parentId].state != WaitingChildren
    ensures var t := ReleaseParent(AttachChildren(linked, parentId, ChildJobs(s.queue, parentId, specs, uuids, now)), parentId, now);
            && StoresChildren(s, t, parentId, specs, uuids, now)
            && parentId in t.jobs && t.jobs[parentId] == linked.jobs[parentId]
  {
    var children := ChildJobs(s.queue, parentId, specs, uuids, now);
    var t := AttachChildren(linked, parentId, children);
    ChildrenAreFreshPlain(s, parentId, specs, uuids, now);
    AttachFrame(linked, parentId, children);
    AttachQueuesBehind(s, linked, parentId, children);
    AttachedAreStored(s, linked, t, parentId, specs, uuids, now);
    if specs != [] { NewChildrenBlock(s, t, parentId, specs, uuids, now); }
  }

  // -- A running parent -----------------------------------------------------------------------------------

  /** A parent that gave up its lease to wait for `more` children beside those it had. */
  predicate ParksBehind(before: Job, after: Job, more: seq<JobId>)
  {
    && SameWork(before, after.(childIds := before.childIds)) && IsUnleased(after)
    && after.state == WaitingChildren && after.childIds == before.childIds + more
    && after.processedAt.None? && after.finishedAt.None? && after.failedReason.None? && after.deferredFailure.None?
    && after.returnValue == before.returnValue && after.enqueuedSeq == before.enqueuedSeq
  }

  /** Who holds a parent none of whose children is unforgiven may park it behind more plain children. */
  lemma ParkingAnswers(s: QueueState, p: JobId, token: Token, specs: seq<JobSpec>, uuids: seq<JobId>, now: Time)
    requires Core(s) && |specs| == |uuids| && specs != [] && "" !in uuids && Holds(s, p, token)
    requires forall c | c in s.jobs[p].childIds :: !IsUnforgiven(s, p, c)
    requires IsPlainFlow(s, p, specs, uuids, now) && forall x | x in SubmittedIds(specs, uuids) :: x !in s.jobs[p].childIds
    ensures var o := AddFlowChildren(s, p, token, specs, uuids, now);
            && o.reply.Ok? && p in o.state.jobs && ParksBehind(s.jobs[p], o.state.jobs[p], SubmittedIds(specs, uuids))
            && StoresChildren(s, o.state, p, specs, uuids, now)
  {
    var children := ChildJobs(s.queue, p, specs, uuids, now);
    ChildrenAreFreshPlain(s, p, specs, uuids, now);
    PlainParking(s, p, token, specs, uuids, now);
    ParkingIsAccepted(s, p, children, now);
    ParkedIsStored(s, p, specs, uuids, now);
  }

  lemma PlainParking(s: QueueState, p: JobId, token: Token, specs: seq<JobSpec>, uuids: seq<JobId>, now: Time)
    requires Core(s) && |specs| == |uuids| && specs != [] && "" !in uuids && Holds(s, p, token)
    requires forall c | c in s.jobs[p].childIds :: !IsUnforgiven(s, p, c)
    requires IsPlainFlow(s, p, specs, uuids, now)
    ensures AddFlowChildren(s, p, token, specs, uuids, now) == ParkBehind(s, p, ChildJobs(s.queue, p, specs, uuids, now), now)
  {
    PlainIsValid(specs, now);
    NoneIsUnforgiven(s, p);
    assert Ids(ChildJobs(s.queue, p, specs, uuids, now)) == SubmittedIds(specs, uuids);
  }

  lemma NoneIsUnforgiven(s: QueueState, p: JobId)
    requires Core(s) && p in s.jobs && forall c | c in s.jobs[p].childIds :: !IsUnforgiven(s, p, c)
    ensures ChildCounts(s, p).failed == 0
  {
    FailuresAreUnforgiven(s, p);
  }

  lemma ParkingIsAccepted(s: QueueState, p: JobId, children: seq<Job>, now: Time)
    requires p in s.jobs && AreFreshPlain(s, p, children) && forall k | 0 <= k < |children| :: children[k].id !in s.jobs[p].childIds
    ensures var o := ParkBehind(s, p, children, now);
            && o.reply.Ok?
            && o.state == JoinFlow(s, p, Parked(s.jobs[p]).(childIds := AppendNew(s.jobs[p].childIds, Ids(children))), children, now)
  {
    NothingConflicts(s, p, s.jobs[p].childIds, children);
    NothingIsScanned(s, children, {}, now);
    NobodyIsSkipped(children);
    UnstoredArePlain(s, children);
    PlainKeysAreFree(s, Unstored(s, children));
  }

  lemma ParkedIsStored(s: QueueState, p: JobId, specs: seq<JobSpec>, uuids: seq<JobId>, now: Time)
    requires |specs| == |uuids| && specs != [] && "" !in uuids && p in s.jobs
    requires IsPlainFlow(s, p, specs, uuids, now) && forall x | x in SubmittedIds(specs, uuids) :: x !in s.jobs[p].childIds
    ensures var children := ChildJobs(s.queue, p, specs, uuids, now);
            var t := JoinFlow(s, p, Parked(s.jobs[p]).(childIds := AppendNew(s.jobs[p].childIds, Ids(children))), children, now);
            && p in t.jobs && ParksBehind(s.jobs[p], t.jobs[p], SubmittedIds(specs, uuids)) && StoresChildren(s, t, p, specs, uuids, now)
  {
    ChildrenAreFreshPlain(s, p, specs, uuids, now);
    SubmittedAreDistinct(p, SubmittedIds(specs, uuids));
    NewIdsAreAppended(s.jobs[p].childIds, SubmittedIds(specs, uuids));
    ParkedRecordIsStored(s, p, Parked(s.jobs[p]).(childIds := s.jobs[p].childIds + SubmittedIds(specs, uuids)), specs, uuids, now);
  }

  lemma SubmittedAreDistinct(p: JobId, ids: seq<JobId>)
    requires NoDuplicates([p] + ids)
    ensures NoDuplicates(ids)
  {
    var all := [p] + ids;
    assert forall k | 0 <= k < |ids| :: all[k + 1] == ids[k];
  }

  lemma ParkedRecordIsStored(s: QueueState, p: JobId, parent: Job, specs: seq<JobSpec>, uuids: seq<JobId>, now: Time)
    requires |specs| == |uuids| && specs != [] && "" !in uuids && p in s.jobs && IsPlainFlow(s, p, specs, uuids, now)
    requires ParksBehind(s.jobs[p], parent, SubmittedIds(specs, uuids))
    ensures var t := JoinFlow(s, p, parent, ChildJobs(s.queue, p, specs, uuids, now), now);
            && p in t.jobs && t.jobs[p] == parent && StoresChildren(s, t, p, specs, uuids, now)
  {
    ChildrenAreStored(s, Put(s, p, parent), p, specs, uuids, now);
  }

  // -- Detaching a child ------------------------------------------------------------------------------------

  lemma WithoutNext(ids: seq<JobId>, rest: seq<JobId>, id: JobId, last: JobId)
    requires IsWithout(ids, rest, id) && last !in ids
    ensures IsWithout(ids + [last], if last == id then rest else rest + [last], id)
  {
    var more := ids + [last];
    if last == id {
      assert more[|ids|] == id && more[..|ids|] == ids && more[|ids| + 1..] == [];
      assert ids == more[..|ids|] + more[|ids| + 1..];
    } else if id in ids {
      var k :| 0 <= k < |ids| && ids[k] == id && rest == ids[..k] + ids[k + 1..];
      assert more[k] == id && more[..k] == ids[..k] && more[k + 1..] == ids[k + 1..] + [last];
      assert rest + [last] == more[..k] + more[k + 1..];
    } else {
      assert id !in more;
    }
  }

  lemma {:induction false} WithoutMeans(ids: seq<JobId>, id: JobId)
    requires NoDuplicates(ids)
    ensures IsWithout(ids, Without(ids, id), id)
    decreases |ids|
  {
    if ids != [] {
      var n := |ids| - 1;
      assert ids == ids[..n] + [ids[n]];
      WithoutMeans(ids[..n], id);
      WithoutNext(ids[..n], Without(ids[..n], id), id, ids[n]);
    }
  }

  /** The list without its one mention of `id`. */
  ghost predicate IsWithout(before: seq<JobId>, after: seq<JobId>, id: JobId)
  {
    if id in before then exists k :: 0 <= k < |before| && before[k] == id && after == before[..k] + before[k + 1..] else after == before
  }

  /**
    Detaching a child takes it out of its stored parent's list and index and
    makes it nobody's child; everything else about it stays. A parent that does
    not wait for children, or waits for others, changes in nothing else.
   */
  lemma DetachmentAnswers(s: QueueState, c: JobId, now: Time)
    requires Core(s)
    ensures var o := RemoveChildDependency(s, c, now);
            if c !in s.jobs then o == Out(s, Err(JobNotFound))
            else match s.jobs[c].parentId
                 case None => o == Out(s, Ok(false))
                 case Some(p) =>
                   if p !in s.jobs then o == Out(s, Err(JobNotFound))
                   else if c !in s.jobs[p].childIds then o == Out(s, Ok(false))
                   else o.reply == Ok(true) && (p != c ==> DetachSays(s, o.state, p, c))
  {
    if c in s.jobs && s.jobs[c].parentId.Some? {
      var p := s.jobs[c].parentId.value;
      if p in s.jobs {
        assert c !in s.jobs[p].childIds ==> !IndexOf(s, p).Contains(c);
        if p != c && c in s.jobs[p].childIds { DetachedSays(s, p, c, now); }
      }
    }
  }

  ghost predicate DetachSays(s: QueueState, t: QueueState, p: JobId, c: JobId)
    requires p in s.jobs && c in s.jobs
  {
    && (p in t.jobs ==> IsWithout(s.jobs[p].childIds, t.jobs[p].childIds, c) && !IndexOf(t, p).Contains(c))
    && (IsLiveJob(s, c) ==> c in t.jobs && t.jobs[c] == s.jobs[c].(parentId := None))
    && (s.jobs[p].state != WaitingChildren || (exists x :: x in s.jobs[p].childIds && x != c && x in Unfinished(s)) ==>
          p in t.jobs && t.jobs[p] == s.jobs[p].(childIds := t.jobs[p].childIds))
  }

  lemma DetachedSays(s: QueueState, p: JobId, c: JobId, now: Time)
    requires Core(s) && p in s.jobs && c in s.jobs && p != c
    ensures DetachSays(s, ReleaseParent(Detached(s, p, c), p, now), p, c)
  {
    assert WellFormedJob(p, s.jobs[p]);
    WithoutMeans(s.jobs[p].childIds, c);
    WithoutContains(s.jobs[p].childIds, c);
    DetachedRecords(s, p, c);
    DetachedKeeps(s, p, c);
    assert IsDetached(s, Detached(s, p, c), p, c, Without(s.jobs[p].childIds, c));
    ReleasedAfterDetachment(s, Detached(s, p, c), p, c, Without(s.jobs[p].childIds, c), now);
  }

  /** `d` is `s` with `c` detached from `p`, whose list is then `rest`. */
  ghost predicate IsDetached(s: QueueState, d: QueueState, p: JobId, c: JobId, rest: seq<JobId>)
  {
    && p in s.jobs && c in s.jobs && p != c
    && (forall x :: x in rest <==> x in s.jobs[p].childIds && x != c)
    && d.jobs == s.jobs[p := s.jobs[p].(childIds := rest)][c := s.jobs[c].(parentId := None)] && !IndexOf(d, p).Contains(c)
  }

  lemma ReleasedAfterDetachment(s: QueueState, d: QueueState, p: JobId, c: JobId, rest: seq<JobId>, now: Time)
    requires Core(d) && IsDetached(s, d, p, c, rest) && IsWithout(s.jobs[p].childIds, rest, c)
    ensures DetachSays(s, ReleaseParent(d, p, now), p, c)
  {
    DetachedList(s, d, p, c, rest, now);
    DetachedChild(s, d, p, c, rest, now);
    if s.jobs[p].state != WaitingChildren || exists x :: x in s.jobs[p].childIds && x != c && x in Unfinished(s) {
      DetachedParent(s, d, p, c, rest, now);
    }
  }

  lemma DetachedList(s: QueueState, d: QueueState, p: JobId, c: JobId, rest: seq<JobId>, now: Time)
    requires Core(d) && IsDetached(s, d, p, c, rest)
    ensures var t := ReleaseParent(d, p, now); p in t.jobs ==> t.jobs[p].childIds == rest && !IndexOf(t, p).Contains(c)
  {
    ReleaseParentIsCalm(d, p, now);
    if p in ReleaseParent(d, p, now).jobs { assert CalmJob(d.jobs[p], ReleaseParent(d, p, now).jobs[p]); }
  }

  lemma DetachedChild(s: QueueState, d: QueueState, p: JobId, c: JobId, rest: seq<JobId>, now: Time)
    requires IsDetached(s, d, p, c, rest)
    ensures var t := ReleaseParent(d, p, now); IsLiveJob(s, c) ==> c in t.jobs && t.jobs[c] == s.jobs[c].(parentId := None)
  {
    if IsParked(d, p) { ReleaseDecides(d, p, now); }
  }

  lemma DetachedParent(s: QueueState, d: QueueState, p: JobId, c: JobId, rest: seq<JobId>, now: Time)
    requires IsDetached(s, d, p, c, rest)
    requires s.jobs[p].state != WaitingChildren || exists x :: x in s.jobs[p].childIds && x != c && x in Unfinished(s)
    ensures var t := ReleaseParent(d, p, now); p in t.jobs && t.jobs[p] == s.jobs[p].(childIds := rest)
  {
    if IsParked(d, p) {
      var x :| x in s.jobs[p].childIds && x != c && x in Unfinished(s);
      assert x in d.jobs[p].childIds && x in Unfinished(d);
      ReleaseDecides(d, p, now);
    }
  }

  lemma DetachedRecords(s: QueueState, p: JobId, c: JobId)
    requires Core(s) && p in s.jobs && c in s.jobs && p != c
    ensures var d := Detached(s, p, c);
            && d.jobs == s.jobs[p := s.jobs[p].(childIds := Without(s.jobs[p].childIds, c))][c := s.jobs[c].(parentId := None)]
            && !IndexOf(d, p).Contains(c)
  {
    ClearRemovesEveryTrace(s, p, c);
    ClearedThenUnlisted(s, p, c);
  }

  // -- Removing what was not processed ------------------------------------------------------------------------

  predicate IsUnprocessed(s: QueueState, x: JobId)
  {
    x in s.jobs && (s.jobs[x].state == Waiting || s.jobs[x].state == Delayed || s.jobs[x].state == WaitingChildren)
  }

  /** `path` leads down from `p` to its last job, from parent to listed child, through jobs neither running nor finished. */
  ghost predicate LeadsDown(s: QueueState, p: JobId, path: seq<JobId>)
  {
    && p in s.jobs && path != [] && path[0] in s.jobs[p].childIds
    && (forall k | 0 <= k < |path| :: IsUnprocessed(s, path[k]))
    && (forall k | 0 <= k < |path| - 1 :: path[k] in s.jobs && path[k + 1] in s.jobs[path[k]].childIds)
  }

  ghost predicate IsUnprocessedBelow(s: QueueState, p: JobId, x: JobId)
  {
    exists path :: LeadsDown(s, p, path) && path[|path| - 1] == x
  }

  lemma DownIsReachable(s: QueueState, p: JobId, x: JobId)
    requires p in s.jobs
    ensures IsUnprocessedBelow(s, p, x) <==> Descendants.Reachable(s.jobs, s.jobs[p].childIds, x)
  {
    if path :| LeadsDown(s, p, path) && path[|path| - 1] == x {
      assert Descendants.RemovablePath(s.jobs, s.jobs[p].childIds, path);
    }
    if path :| Descendants.RemovablePath(s.jobs, s.jobs[p].childIds, path) && path[|path| - 1] == x {
      assert LeadsDown(s, p, path);
    }
  }

  /** The jobs answered are those of `ids`, once each; they are gone, and whoever else is unfinished, but for `p`, is as before. */
  ghost predicate RemovesBelow(s: QueueState, t: QueueState, p: JobId, jobs: seq<Job>, ids: seq<JobId>)
  {
    && NoDuplicates(ids) && (forall x :: x in ids <==> IsUnprocessedBelow(s, p, x)) && AreRecords(s, jobs, ids)
    && (forall id | id in ids :: id !in t.jobs)
    && forall x | IsLiveJob(s, x) && x !in ids && x != p :: x in t.jobs && t.jobs[x] == s.jobs[x]
  }

  /** Removing the unprocessed children of a parent takes everything unprocessed below it, and nothing else. */
  lemma UnprocessedRemovalAnswers(s: QueueState, p: JobId, now: Time)
    requires Core(s)
    ensures var o := RemoveUnprocessedChildren(s, p, now);
            if p !in s.jobs then o == Out(s, None) else o.reply.Some? && exists ids :: RemovesBelow(s, o.state, p, o.reply.value, ids)
  {
    if p in s.jobs {
      var ids := Descendants.Walk(s.jobs, s.jobs[p].childIds, {}).out;
      Descendants.WalkIsReachability(s.jobs, s.jobs[p].childIds);
      forall x ensures x in ids <==> IsUnprocessedBelow(s, p, x) { DownIsReachable(s, p, x); }
      forall x | x in ids ensures x in s.jobs { var path :| LeadsDown(s, p, path) && path[|path| - 1] == x; }
      StoredAreRecords(s, ids);
      RemovedThenReleased(s, ids, p, now);
      assert RemovesBelow(s, RemoveUnprocessedChildren(s, p, now).state, p, StoredJobs(s, ids), ids);
    }
  }

  lemma RemovedThenReleased(s: QueueState, ids: seq<JobId>, p: JobId, now: Time)
    ensures var t := ReleaseParent(RemoveAll(s, Elements(ids)), p, now);
            && (forall id | id in ids :: id !in t.jobs)
            && forall x | IsLiveJob(s, x) && x !in ids && x != p :: x in t.jobs && t.jobs[x] == s.jobs[x]
  {
    var removed := RemoveAll(s, Elements(ids));
    assert forall x | IsLiveJob(s, x) && x !in ids :: IsLiveJob(removed, x) && removed.jobs[x] == s.jobs[x];
    if IsParked(removed, p) { ReleaseDecides(removed, p, now); }
    ReleaseAddsNobody(removed, p, now);
  }
}
