/**
  Adding jobs, flows and flow children keeps the core invariant and hands out no
  lock token.
 */
module CoreSubmit {
  import opened Ordering
  import opened JobTypes
  import opened QueueModel
  import opened CoreInvariant
  import opened Operations
  import Descendants

  /** Whoever holds a token in `t` held it in `s` already. */
  ghost predicate Quiet(s: QueueState, t: QueueState)
  {
    forall id | id in t.jobs && t.jobs[id].lockToken.Some? :: t.jobs[id].lockToken == TokenOf(s, id)
  }

  lemma CalmIsQuiet(s: QueueState, t: QueueState)
    requires Core(s) && Core(t) && Calm(s, t)
    ensures Quiet(s, t)
  {
    forall id | id in t.jobs && t.jobs[id].lockToken.Some? ensures t.jobs[id].lockToken == TokenOf(s, id) {
      assert WellFormedJob(id, t.jobs[id]) && CalmJob(s.jobs[id], t.jobs[id]);
    }
  }

  lemma QuietTransitive(s: QueueState, t: QueueState, u: QueueState)
    requires Quiet(s, t) && Quiet(t, u)
    ensures Quiet(s, u)
  {
  }

  /** `t` is reached from `s` within one operation. */
  ghost predicate Keeps(s: QueueState, t: QueueState)
  {
    Core(t) && Quiet(s, t)
  }

  lemma KeepsThenCalm(s: QueueState, t: QueueState, u: QueueState)
    requires Keeps(s, t) && Core(u) && Calm(t, u)
    ensures Keeps(s, u)
  {
    CalmIsQuiet(t, u);
  }

  // -- New jobs ---------------------------------------------------------------

  /** A job that has not been stored yet. */
  predicate IsNew(job: Job)
  {
    && WellFormedJob(job.id, job)
    && (job.state == Waiting || job.state == Delayed)
    && job.enqueuedSeq == 0 && job.attemptsMade == 0 && job.stalledCount == 0 && job.repeatCount == 0
    && job.childIds == []
  }

  lemma NewJobIsNew(queue: string, spec: JobSpec, uuid: JobId, now: Time)
    requires spec.options.Valid() && uuid != ""
    ensures IsNew(NewJob(queue, spec, uuid, now))
    ensures NewJob(queue, spec, uuid, now).parentId.None?
  {
  }

  lemma InsertKeeps(s: QueueState, job: Job)
    requires Core(s) && job.id !in s.jobs && WellFormedJob(job.id, job)
    requires job.state != Active && job.enqueuedSeq == 0
    ensures Keeps(s, Insert(s, job))
  {
    InsertKeepsCore(s, job);
  }

  lemma AddUnlessRepeatingKeeps(s: QueueState, job: Job)
    requires Core(s) && job.id !in s.jobs && IsNew(job)
    ensures Keeps(s, AddUnlessRepeating(s, job).state)
  {
    if FindRepeatOwner(s, job).None? { InsertKeeps(s, job); }
  }

  lemma ExtendKeeps(s: QueueState, candidate: Job, id: JobId, now: Time)
    requires Core(s)
    ensures Keeps(s, ExtendExpiration(s, candidate, id, now))
  {
    if ExtendExpiration(s, candidate, id, now) != s {
      PutKeepsCore(s, id, s.jobs[id].(deduplicationExpiresAt := DeduplicationExpiration(candidate.options, now)));
    }
  }

  lemma ReplaceKeeps(s: QueueState, owner: JobId, job: Job)
    requires Core(s) && job.id !in s.jobs && IsNew(job)
    ensures Keeps(s, AddUnlessRepeating(Remove(s, owner), job).state)
  {
    RemoveIsCalm(s, owner);
    CalmIsQuiet(s, Remove(s, owner));
    AddUnlessRepeatingKeeps(Remove(s, owner), job);
    QuietTransitive(s, Remove(s, owner), AddUnlessRepeating(Remove(s, owner), job).state);
  }

  lemma AddJobKeeps(s: QueueState, job: Job, now: Time)
    requires Core(s) && IsNew(job)
    ensures Keeps(s, AddJob(s, job, now).state)
  {
    if job.id !in s.jobs {
      var owner := FindDeduplicationOwner(s, job, now);
      if owner.None? {
        AddUnlessRepeatingKeeps(s, job);
      } else if ReplacesDelayedOwner(job, s.jobs[owner.value]) {
        ReplaceKeeps(s, owner.value, PreserveExpiration(job, s.jobs[owner.value]));
      } else {
        ExtendKeeps(s, job, owner.value, now);
      }
    }
  }

  lemma AddKeeps(s: QueueState, spec: JobSpec, uuid: JobId, now: Time)
    requires Core(s) && uuid != ""
    ensures Keeps(s, Add(s, spec, uuid, now).state)
  {
    if spec.options.ValidAt(now) {
      NewJobIsNew(s.queue, spec, uuid, now);
      AddJobKeeps(s, NewJob(s.queue, spec, uuid, now), now);
    }
  }

  lemma {:induction false} AddJobsKeeps(s: QueueState, jobs: seq<Job>, now: Time)
    requires Core(s) && forall k | 0 <= k < |jobs| :: IsNew(jobs[k])
    ensures Keeps(s, AddJobs(s, jobs, now).state)
    decreases |jobs|
  {
    if jobs != [] {
      var n := |jobs| - 1;
      AddJobsKeeps(s, jobs[..n], now);
      AddJobKeeps(AddJobs(s, jobs[..n], now).state, jobs[n], now);
    }
  }

  lemma AddManyKeeps(s: QueueState, specs: seq<JobSpec>, uuids: seq<JobId>, now: Time)
    requires Core(s) && |specs| == |uuids| && "" !in uuids
    ensures Keeps(s, AddMany(s, specs, uuids, now).state)
  {
    if forall k | 0 <= k < |specs| :: specs[k].options.ValidAt(now) {
      var jobs := NewJobs(s.queue, specs, uuids, now);
      forall k | 0 <= k < |jobs| ensures IsNew(jobs[k]) { NewJobIsNew(s.queue, specs[k], uuids[k], now); }
      AddJobsKeeps(s, jobs, now);
    }
  }

  // -- Flows ------------------------------------------------------------------

  /** The children of one submission: new jobs with distinct ids, naming their parent. */
  predicate AreChildren(parentId: JobId, children: seq<Job>)
  {
    && (forall k | 0 <= k < |children| :: IsNew(children[k]) && children[k].parentId == Some(parentId) && children[k].id != parentId)
    && (forall i, j | 0 <= i < j < |children| :: children[i].id != children[j].id)
  }

  lemma ChildJobsAreChildren(queue: string, parentId: JobId, specs: seq<JobSpec>, uuids: seq<JobId>, now: Time)
    requires |specs| == |uuids| && "" !in uuids
    requires forall k | 0 <= k < |specs| :: specs[k].options.ValidAt(now)
    requires NoDuplicates([parentId] + Ids(ChildJobs(queue, parentId, specs, uuids, now)))
    ensures AreChildren(parentId, ChildJobs(queue, parentId, specs, uuids, now))
  {
    var children := ChildJobs(queue, parentId, specs, uuids, now);
    var ids := [parentId] + Ids(children);
    forall k | 0 <= k < |children|
      ensures IsNew(children[k]) && children[k].parentId == Some(parentId) && children[k].id != parentId
    {
      NewJobIsNew(queue, specs[k], uuids[k], now);
      assert ids[0] == parentId && ids[k + 1] == children[k].id;
    }
    forall i, j | 0 <= i < j < |children| ensures children[i].id != children[j].id {
      assert ids[i + 1] == children[i].id && ids[j + 1] == children[j].id;
    }
  }

  lemma {:induction false} UnskippedAreChildren(parentId: JobId, children: seq<Job>, skipped: set<JobId>)
    requires AreChildren(parentId, children)
    ensures AreChildren(parentId, Unskipped(children, skipped))
    ensures forall x :: x in Unskipped(children, skipped) <==> x in children && x.id !in skipped
    decreases |children|
  {
    if children != [] {
      var n := |children| - 1;
      UnskippedAreChildren(parentId, children[..n], skipped);
      assert children == children[..n] + [children[n]];
      var kept := Unskipped(children[..n], skipped);
      forall k | 0 <= k < |kept| ensures kept[k].id != children[n].id {
        assert kept[k] in children[..n];
      }
    }
  }

  /** Only expirations of deduplication ids differ. */
  ghost predicate OnlyExpirations(s: QueueState, t: QueueState)
  {
    && t.jobs.Keys == s.jobs.Keys
    && forall id | id in s.jobs :: t.jobs[id] == s.jobs[id].(deduplicationExpiresAt := t.jobs[id].deduplicationExpiresAt)
  }

  lemma ExtendOnlyExpires(s: QueueState, t: QueueState, candidate: Job, id: JobId, now: Time)
    requires OnlyExpirations(s, t)
    ensures OnlyExpirations(s, ExtendExpiration(t, candidate, id, now))
  {
  }

  lemma ScanChildKeeps(s: QueueState, scan: Scan, child: Job, now: Time)
    requires Keeps(s, scan.state) && OnlyExpirations(s, scan.state)
    ensures Keeps(s, ScanChild(scan, child, now).state) && OnlyExpirations(s, ScanChild(scan, child, now).state)
  {
    var t := ScanChild(scan, child, now).state;
    if t != scan.state {
      var owner := Find(scan.state, DeduplicationOwners(scan.state, ActiveDeduplicationId(child, now).value, now));
      ExtendKeeps(scan.state, child, owner.value, now);
      ExtendOnlyExpires(s, scan.state, child, owner.value, now);
      QuietTransitive(s, scan.state, t);
    }
  }

  lemma {:induction false} ScanKeeps(s: QueueState, children: seq<Job>, taken: set<string>, now: Time)
    requires Core(s)
    ensures Keeps(s, ScanDeduplication(s, children, taken, now).state)
    ensures OnlyExpirations(s, ScanDeduplication(s, children, taken, now).state)
    decreases |children|
  {
    if children != [] {
      var n := |children| - 1;
      ScanKeeps(s, children[..n], taken, now);
      ScanChildKeeps(s, ScanDeduplication(s, children[..n], taken, now), children[n], now);
    }
  }

  lemma {:induction false} AppendNewContains(ids: seq<JobId>, more: seq<JobId>)
    requires NoDuplicates(ids)
    ensures NoDuplicates(AppendNew(ids, more))
    ensures forall x :: x in AppendNew(ids, more) <==> x in ids || x in more
    decreases |more|
  {
    if more != [] {
      AppendNewContains(ids, more[..|more| - 1]);
      assert more == more[..|more| - 1] + [more[|more| - 1]];
    }
  }

  lemma PutKeeps(s: QueueState, id: JobId, job: Job)
    requires Core(s) && id in s.jobs && WellFormedJob(id, job) && ListsAtLeast(s, id, job)
    requires job.lockToken.None? || job.lockToken == s.jobs[id].lockToken
    requires job.enqueuedSeq == 0 || job.enqueuedSeq == s.jobs[id].enqueuedSeq
    ensures Keeps(s, Put(s, id, job))
  {
    PutKeepsCore(s, id, job);
  }

  lemma AttachChildKeeps(s: QueueState, parentId: JobId, child: Job)
    requires Core(s) && IsNew(child)
    ensures Keeps(s, AttachChild(s, parentId, child))
  {
    if child.id in s.jobs {
      var existing := s.jobs[child.id].(parentId := Some(parentId));
      PutKeeps(s, child.id, existing);
      RecordIsCalm(Put(s, child.id, existing), parentId, existing);
      KeepsThenCalm(s, Put(s, child.id, existing), AttachChild(s, parentId, child));
    } else {
      InsertKeeps(s, child);
    }
  }

  lemma {:induction false} AttachChildrenKeeps(s: QueueState, parentId: JobId, children: seq<Job>)
    requires Core(s) && forall k | 0 <= k < |children| :: IsNew(children[k])
    ensures Keeps(s, AttachChildren(s, parentId, children))
    decreases |children|
  {
    if children != [] {
      var n := |children| - 1;
      AttachChildrenKeeps(s, parentId, children[..n]);
      AttachChildKeeps(AttachChildren(s, parentId, children[..n]), parentId, children[n]);
    }
  }

  lemma JoinFlowKeeps(s: QueueState, parentId: JobId, parent: Job, joining: seq<Job>, now: Time)
    requires Core(s) && parentId in s.jobs && WellFormedJob(parentId, parent) && ListsAtLeast(s, parentId, parent)
    requires parent.lockToken.None? || parent.lockToken == s.jobs[parentId].lockToken
    requires parent.enqueuedSeq == s.jobs[parentId].enqueuedSeq
    requires forall k | 0 <= k < |joining| :: IsNew(joining[k])
    ensures Keeps(s, JoinFlow(s, parentId, parent, joining, now))
    ensures Quiet(Put(s, parentId, parent), JoinFlow(s, parentId, parent, joining, now))
  {
    var linked := Put(s, parentId, parent);
    PutKeeps(s, parentId, parent);
    AttachChildrenKeeps(linked, parentId, joining);
    var attached := AttachChildren(linked, parentId, joining);
    QuietTransitive(s, linked, attached);
    ReleaseParentIsCalm(attached, parentId, now);
    CalmIsQuiet(attached, ReleaseParent(attached, parentId, now));
    QuietTransitive(s, attached, ReleaseParent(attached, parentId, now));
    QuietTransitive(linked, attached, ReleaseParent(attached, parentId, now));
  }

  lemma AddFlowToExistingKeeps(s: QueueState, parentId: JobId, children: seq<Job>, now: Time)
    requires Core(s) && parentId in s.jobs && AreChildren(parentId, children)
    ensures Keeps(s, AddFlowToExisting(s, parentId, children, now).state)
  {
    var listed := s.jobs[parentId].childIds;
    if FirstConflict(s, parentId, listed, children).None? {
      var scan := ScanDeduplication(s, children, {}, now);
      ScanKeeps(s, children, {}, now);
      var joining := Unskipped(children, scan.skipped);
      UnskippedAreChildren(parentId, children, scan.skipped);
      if !scan.conflict && RepeatKeysFree(scan.state, Unstored(scan.state, joining)) {
        AppendNewContains(listed, Ids(joining));
        var parent := scan.state.jobs[parentId].(childIds := AppendNew(listed, Ids(joining)));
        JoinFlowKeeps(scan.state, parentId, parent, joining, now);
        QuietTransitive(s, scan.state, JoinFlow(scan.state, parentId, parent, joining, now));
      }
    }
  }

  lemma RootJobWellFormed(parent: Job, joining: seq<Job>, now: Time)
    requires IsNew(parent) && AreChildren(parent.id, joining)
    ensures WellFormedJob(parent.id, RootJob(parent, joining, now))
  {
    forall i, j | 0 <= i < j < |joining| ensures Ids(joining)[i] != Ids(joining)[j] {}
  }

  lemma StartFlowKeeps(s: QueueState, root: Job, joining: seq<Job>, now: Time)
    requires Core(s) && root.id !in s.jobs && WellFormedJob(root.id, root)
    requires root.state != Active && root.enqueuedSeq == 0
    requires forall k | 0 <= k < |joining| :: IsNew(joining[k])
    ensures Keeps(s, StartFlow(s, root, joining, now))
  {
    InsertKeeps(s, root);
    AttachChildrenKeeps(Insert(s, root), root.id, joining);
    var attached := AttachChildren(Insert(s, root), root.id, joining);
    QuietTransitive(s, Insert(s, root), attached);
    ReleaseParentIsCalm(attached, root.id, now);
    KeepsThenCalm(s, attached, ReleaseParent(attached, root.id, now));
  }

  lemma AddNewFlowKeeps(s: QueueState, parent: Job, children: seq<Job>, now: Time)
    requires Core(s) && parent.id !in s.jobs && IsNew(parent) && AreChildren(parent.id, children)
    ensures Keeps(s, AddNewFlow(s, parent, children, now).state)
  {
    var owner := FindDeduplicationOwner(s, parent, now);
    if owner.Some? {
      ExtendKeeps(s, parent, owner.value, now);
    } else if FirstConflict(s, parent.id, [], children).None? {
      var taken := if ActiveDeduplicationId(parent, now).Some? then {ActiveDeduplicationId(parent, now).value} else {};
      var scan := ScanDeduplication(s, children, taken, now);
      ScanKeeps(s, children, taken, now);
      var joining := Unskipped(children, scan.skipped);
      UnskippedAreChildren(parent.id, children, scan.skipped);
      var root := RootJob(parent, joining, now);
      RootJobWellFormed(parent, joining, now);
      if !scan.conflict && RepeatKeysFree(scan.state, [root] + Unstored(scan.state, joining)) {
        StartFlowKeeps(scan.state, root, joining, now);
        QuietTransitive(s, scan.state, StartFlow(scan.state, root, joining, now));
      }
    }
  }

  lemma AddFlowKeeps(s: QueueState, spec: JobSpec, uuid: JobId, specs: seq<JobSpec>, uuids: seq<JobId>, now: Time)
    requires Core(s) && |specs| == |uuids| && uuid != "" && "" !in uuids
    ensures Keeps(s, AddFlow(s, spec, uuid, specs, uuids, now).state)
  {
    if spec.options.ValidAt(now) && forall k | 0 <= k < |specs| :: specs[k].options.ValidAt(now) {
      var parent := NewJob(s.queue, spec, uuid, now);
      NewJobIsNew(s.queue, spec, uuid, now);
      var children := ChildJobs(s.queue, parent.id, specs, uuids, now);
      if NoDuplicates([parent.id] + Ids(children)) {
        ChildJobsAreChildren(s.queue, parent.id, specs, uuids, now);
        if parent.id in s.jobs { AddFlowToExistingKeeps(s, parent.id, children, now); }
        else { AddNewFlowKeeps(s, parent, children, now); }
      }
    }
  }

  lemma ParkScannedKeeps(s: QueueState, t: QueueState, parentId: JobId, children: seq<Job>, skipped: set<JobId>, now: Time)
    requires Keeps(s, t) && OnlyExpirations(s, t) && parentId in s.jobs && AreChildren(parentId, children)
    ensures var joining := Unskipped(children, skipped);
            var parent := Parked(t.jobs[parentId]).(childIds := AppendNew(s.jobs[parentId].childIds, Ids(joining)));
            var joined := JoinFlow(t, parentId, parent, joining, now);
            Keeps(s, joined) && Quiet(Put(s, parentId, Parked(s.jobs[parentId])), joined)
  {
    UnskippedAreChildren(parentId, children, skipped);
    ParkedJoinKeeps(s, t, parentId, Unskipped(children, skipped), now);
  }

  lemma ParkBehindKeeps(s: QueueState, parentId: JobId, children: seq<Job>, now: Time)
    requires Core(s) && parentId in s.jobs && AreChildren(parentId, children)
    ensures Keeps(s, ParkBehind(s, parentId, children, now).state)
    ensures ParkBehind(s, parentId, children, now).reply.Ok?
            ==> Quiet(Put(s, parentId, Parked(s.jobs[parentId])), ParkBehind(s, parentId, children, now).state)
  {
    if FirstConflict(s, parentId, s.jobs[parentId].childIds, children).None? {
      var scan := ScanDeduplication(s, children, {}, now);
      ScanKeeps(s, children, {}, now);
      ParkScannedKeeps(s, scan.state, parentId, children, scan.skipped, now);
    }
  }

  /** The parent as the scan left it, parked and listing the newcomers. */
  lemma ParkedJoinKeeps(s: QueueState, t: QueueState, parentId: JobId, joining: seq<Job>, now: Time)
    requires Core(t) && Quiet(s, t) && parentId in s.jobs && parentId in t.jobs && t.jobs[parentId].childIds == s.jobs[parentId].childIds
    requires forall k | 0 <= k < |joining| :: IsNew(joining[k])
    ensures var parent := Parked(t.jobs[parentId]).(childIds := AppendNew(s.jobs[parentId].childIds, Ids(joining)));
            var joined := JoinFlow(t, parentId, parent, joining, now);
            Keeps(s, joined) && Quiet(Put(s, parentId, Parked(s.jobs[parentId])), joined)
  {
    var listed := s.jobs[parentId].childIds;
    assert WellFormedJob(parentId, t.jobs[parentId]);
    AppendNewContains(listed, Ids(joining));
    var parent := Parked(t.jobs[parentId]).(childIds := AppendNew(listed, Ids(joining)));
    JoinFlowKeeps(t, parentId, parent, joining, now);
    QuietTransitive(s, t, JoinFlow(t, parentId, parent, joining, now));
    ParkedIsQuiet(s, t, parentId, parent);
    QuietTransitive(Put(s, parentId, Parked(s.jobs[parentId])), Put(t, parentId, parent), JoinFlow(t, parentId, parent, joining, now));
  }

  lemma ParkedIsQuiet(s: QueueState, t: QueueState, parentId: JobId, parent: Job)
    requires Quiet(s, t) && parentId in s.jobs && parent.lockToken.None?
    ensures Quiet(Put(s, parentId, Parked(s.jobs[parentId])), Put(t, parentId, parent))
  {
  }

  /** A flow submission is refused, or its parent and children are new and go one of two ways. */
  lemma AddFlowCases(s: QueueState, spec: JobSpec, uuid: JobId, specs: seq<JobSpec>, uuids: seq<JobId>, now: Time)
    requires |specs| == |uuids| && uuid != "" && "" !in uuids
    ensures var o := AddFlow(s, spec, uuid, specs, uuids, now);
            var parent := NewJob(s.queue, spec, uuid, now);
            var children := ChildJobs(s.queue, parent.id, specs, uuids, now);
            || (o.state == s && o.reply.Err?)
            || (&& IsNew(parent) && parent.parentId.None? && AreChildren(parent.id, children)
                && o == if parent.id in s.jobs then AddFlowToExisting(s, parent.id, children, now) else AddNewFlow(s, parent, children, now))
  {
    var parent := NewJob(s.queue, spec, uuid, now);
    var children := ChildJobs(s.queue, parent.id, specs, uuids, now);
    if spec.options.ValidAt(now) && (forall k | 0 <= k < |specs| :: specs[k].options.ValidAt(now)) && NoDuplicates([parent.id] + Ids(children)) {
      NewJobIsNew(s.queue, spec, uuid, now);
      ChildJobsAreChildren(s.queue, parent.id, specs, uuids, now);
    }
  }

  lemma AddFlowChildrenCases(s: QueueState, parentId: JobId, token: Token, specs: seq<JobSpec>, uuids: seq<JobId>, now: Time)
    requires |specs| == |uuids| && "" !in uuids
    ensures var o := AddFlowChildren(s, parentId, token, specs, uuids, now);
            var children := ChildJobs(s.queue, parentId, specs, uuids, now);
            || (o.state == s && o.reply.Err?)
            || (parentId in s.jobs && s.jobs[parentId].state == Active && s.jobs[parentId].lockToken == Some(token)
                && ChildCounts(s, parentId).failed == 0
                && AreChildren(parentId, children) && o == ParkBehind(s, parentId, children, now))
  {
    var children := ChildJobs(s.queue, parentId, specs, uuids, now);
    if (forall k | 0 <= k < |specs| :: specs[k].options.ValidAt(now)) && NoDuplicates([parentId] + Ids(children)) {
      ChildJobsAreChildren(s.queue, parentId, specs, uuids, now);
    }
  }

  lemma AddFlowChildrenKeeps(s: QueueState, parentId: JobId, token: Token, specs: seq<JobSpec>, uuids: seq<JobId>, now: Time)
    requires Core(s) && |specs| == |uuids| && "" !in uuids
    ensures Keeps(s, AddFlowChildren(s, parentId, token, specs, uuids, now).state)
    ensures AddFlowChildren(s, parentId, token, specs, uuids, now).reply.Ok?
            ==> Quiet(Put(s, parentId, Parked(s.jobs[parentId])), AddFlowChildren(s, parentId, token, specs, uuids, now).state)
  {
    AddFlowChildrenCases(s, parentId, token, specs, uuids, now);
    var children := ChildJobs(s.queue, parentId, specs, uuids, now);
    if AddFlowChildren(s, parentId, token, specs, uuids, now).state != s
       || AddFlowChildren(s, parentId, token, specs, uuids, now).reply.Ok? {
      ParkBehindKeeps(s, parentId, children, now);
    }
  }

  lemma RemoveUnprocessedChildrenKeeps(s: QueueState, parentId: JobId, now: Time)
    requires Core(s)
    ensures Keeps(s, RemoveUnprocessedChildren(s, parentId, now).state)
  {
    if parentId in s.jobs {
      var ids := Elements(Descendants.Walk(s.jobs, s.jobs[parentId].childIds, {}).out);
      RemoveAllIsCalm(s, ids);
      KeepsThenCalm(s, s, RemoveAll(s, ids));
      ReleaseParentIsCalm(RemoveAll(s, ids), parentId, now);
      KeepsThenCalm(s, RemoveAll(s, ids), ReleaseParent(RemoveAll(s, ids), parentId, now));
    }
  }

  lemma {:induction false} WithoutContains(ids: seq<JobId>, id: JobId)
    ensures forall x :: x in Without(ids, id) <==> x in ids && x != id
    ensures NoDuplicates(ids) ==> NoDuplicates(Without(ids, id))
    decreases |ids|
  {
    if ids != [] {
      var n := |ids| - 1;
      WithoutContains(ids[..n], id);
      assert ids == ids[..n] + [ids[n]];
      if NoDuplicates(ids) {
        assert NoDuplicates(ids[..n]);
        assert ids[n] !in Without(ids[..n], id);
      }
    }
  }

  lemma UnlistingKeepsIndexes(s: QueueState, parentId: JobId, childId: JobId, parent: Job)
    requires Indexes(s) && parentId in s.jobs && !IndexOf(s, parentId).Contains(childId)
    requires forall c | c in s.jobs[parentId].childIds && c != childId :: c in parent.childIds
    ensures Indexes(Put(s, parentId, parent))
  {
    if parentId in s.flowDependencies {
      var index := s.flowDependencies[parentId];
      assert WellFormedIndex(index, s.jobs[parentId].childIds);
      assert WellFormedIndex(index, parent.childIds);
    }
  }

  lemma UnlistingKeeps(s: QueueState, parentId: JobId, childId: JobId)
    requires Core(s) && parentId in s.jobs && !IndexOf(s, parentId).Contains(childId)
    ensures Keeps(s, Put(s, parentId, s.jobs[parentId].(childIds := Without(s.jobs[parentId].childIds, childId))))
  {
    WithoutContains(s.jobs[parentId].childIds, childId);
    var parent := s.jobs[parentId].(childIds := Without(s.jobs[parentId].childIds, childId));
    UnlistingKeepsIndexes(s, parentId, childId, parent);
    assert WellFormedJob(parentId, parent);
    PutKeepsRecords(s, parentId, parent);
  }

  lemma OrphanedKeeps(s: QueueState, childId: JobId)
    requires Core(s) && childId in s.jobs
    ensures Keeps(s, Put(s, childId, s.jobs[childId].(parentId := None)))
  {
    assert WellFormedJob(childId, s.jobs[childId]);
    PutKeeps(s, childId, s.jobs[childId].(parentId := None));
  }

  /** Unlisting the child first and clearing its index entry afterwards comes to the same. */
  lemma ClearedThenUnlisted(s: QueueState, parentId: JobId, childId: JobId)
    requires parentId in s.jobs && childId in s.jobs
    ensures var parent := s.jobs[parentId].(childIds := Without(s.jobs[parentId].childIds, childId));
            ClearChildDependency(Put(s, parentId, parent), parentId, childId)
            == Put(ClearChildDependency(s, parentId, childId), parentId, parent)
  {
  }

  lemma DetachedKeeps(s: QueueState, parentId: JobId, childId: JobId)
    requires Core(s) && parentId in s.jobs && childId in s.jobs
    ensures Keeps(s, Detached(s, parentId, childId))
  {
    ClearKeepsIndexes(s, parentId, childId);
    ClearRemovesEveryTrace(s, parentId, childId);
    ClearedThenUnlisted(s, parentId, childId);
    var cleared := ClearChildDependency(s, parentId, childId);
    var unlisted := Put(cleared, parentId, s.jobs[parentId].(childIds := Without(s.jobs[parentId].childIds, childId)));
    assert Keeps(s, cleared);
    UnlistingKeeps(cleared, parentId, childId);
    OrphanedKeeps(unlisted, childId);
    QuietTransitive(s, cleared, unlisted);
    QuietTransitive(s, unlisted, Detached(s, parentId, childId));
  }

  lemma RemoveChildDependencyKeeps(s: QueueState, childId: JobId, now: Time)
    requires Core(s)
    ensures Keeps(s, RemoveChildDependency(s, childId, now).state)
  {
    if childId in s.jobs && s.jobs[childId].parentId.Some? && s.jobs[childId].parentId.value in s.jobs {
      var parentId := s.jobs[childId].parentId.value;
      DetachedKeeps(s, parentId, childId);
      ReleaseParentIsCalm(Detached(s, parentId, childId), parentId, now);
      KeepsThenCalm(s, Detached(s, parentId, childId), ReleaseParent(Detached(s, parentId, childId), parentId, now));
    }
  }
}
