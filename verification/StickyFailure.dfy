/**
  Sticky failure: once a child failure that fails the parent is indexed, the
  retained parent cannot be completed until that child is retried or detached,
  whatever happens to the child's record.
 */
module StickyFailure {
  import opened Ordering
  import opened JobTypes
  import opened QueueModel
  import opened CoreInvariant
  import opened CoreSubmit
  import opened CoreLifecycle
  import opened FlowReaders
  import opened Operations
  import opened Steps
  import opened FanInSubmit
  import opened FanInRuns
  import opened SideIndex
  import opened IndexRuns
  import Descendants

  /** `p` has `c` indexed as fatal, and if `c` is still stored as its child, the record says so too. */
  ghost predicate Stuck(s: QueueState, p: JobId, c: JobId)
  {
    && p in s.jobs
    && EntryIn(IndexOf(s, p), c) == Fatal
    && (c in s.jobs && s.jobs[c].parentId == Some(p) ==> EntryOf(s.jobs[c]) == Fatal)
  }

  /** `p` is stuck with `c`, or gone. */
  ghost predicate StuckWhileRetained(s: QueueState, p: JobId, c: JobId)
  {
    p in s.jobs ==> Stuck(s, p, c)
  }

  // -- What clean-up leaves ----------------------------------------------------------------

  lemma CalmKeepsStuck(s: QueueState, t: QueueState, p: JobId, c: JobId)
    requires Stuck(s, p, c) && Calm(s, t) && SameIndexes(s, t)
    ensures StuckWhileRetained(t, p, c)
  {
    if c in t.jobs { assert CalmJob(s.jobs[c], t.jobs[c]); }
  }

  lemma CalmMaybeKeepsStuck(s: QueueState, t: QueueState, p: JobId, c: JobId)
    requires StuckWhileRetained(s, p, c) && Calm(s, t) && SameIndexes(s, t)
    ensures StuckWhileRetained(t, p, c)
  {
    if p in s.jobs { CalmKeepsStuck(s, t, p, c); }
  }

  /** Recording some other child, or the same one elsewhere, does not unstick. */
  lemma RecordKeepsStuck(s: QueueState, child: Job, p: JobId, c: JobId)
    requires Indexes(s) && StuckWhileRetained(s, p, c)
    requires child.id == c ==> child.parentId != Some(p)
    ensures StuckWhileRetained(RecordWithParent(s, child), p, c)
  {
    if child.parentId.Some? && child.parentId.value in s.jobs && child.id in s.jobs[child.parentId.value].childIds {
      RecordEntry(s, child.parentId.value, child);
    }
  }

  /** Storing a record that is not `p`'s child `c`. */
  lemma PutKeepsStuck(s: QueueState, t: QueueState, id: JobId, p: JobId, c: JobId)
    requires StuckWhileRetained(s, p, c) && id in t.jobs && t.jobs == s.jobs[id := t.jobs[id]] && t.flowDependencies == s.flowDependencies
    requires p == id ==> p in s.jobs
    requires id == c ==> t.jobs[id].parentId != Some(p) || EntryOf(t.jobs[id]) == Fatal
    ensures StuckWhileRetained(t, p, c)
  {
  }

  lemma FinishKeepsStuck(s: QueueState, id: JobId, finished: Job, now: Time, p: JobId, c: JobId)
    requires Core(s) && Stuck(s, p, c) && id in s.jobs && !s.jobs[id].state.IsTerminal() && WellFormedJob(id, finished)
    requires finished.parentId == s.jobs[id].parentId && finished.childIds == s.jobs[id].childIds
    requires finished.lockToken.None? && finished.enqueuedSeq == s.jobs[id].enqueuedSeq
    ensures StuckWhileRetained(RetainFinished(RecordWithParent(Put(s, id, finished), finished), id, finished, now), p, c)
  {
    var stored := Put(s, id, finished);
    PutKeepsStuck(s, stored, id, p, c);
    PutKeeps(s, id, finished);
    RecordKeepsStuck(stored, finished, p, c);
    RecordWithParentIsCalm(stored, finished);
    var recorded := RecordWithParent(stored, finished);
    RetainFinishedIsCalm(recorded, id, finished, now);
    CalmMaybeKeepsStuck(recorded, RetainFinished(recorded, id, finished, now), p, c);
  }

  lemma InsertKeepsStuck(s: QueueState, job: Job, p: JobId, c: JobId)
    requires StuckWhileRetained(s, p, c) && job.id !in s.jobs && job.parentId.None? && job.id != p
    ensures StuckWhileRetained(Insert(s, job), p, c)
  {
    InsertStores(s, job);
    PutKeepsStuck(s, Insert(s, job), job.id, p, c);
  }

  lemma CompleteKeepsStuck(s: QueueState, id: JobId, token: Token, value: Value, uuid: JobId, cronNext: Option<Time>, now: Time, p: JobId, c: JobId)
    requires Core(s) && Stuck(s, p, c) && uuid != "" && uuid !in s.jobs
    ensures StuckWhileRetained(Complete(s, id, token, value, uuid, cronNext, now).state, p, c)
  {
    if Complete(s, id, token, value, uuid, cronNext, now).reply.Ok? {
      assert WellFormedJob(id, s.jobs[id]);
      var completed := CompletedJob(s.jobs[id], value, now);
      FinishKeepsStuck(s, id, completed, now, p, c);
      FinishKeeps(s, id, completed, now);
      var retained := RetainFinished(RecordWithParent(Put(s, id, completed), completed), id, completed, now);
      SuccessionKeepsStuck(s.queue, retained, completed, uuid, cronNext, now, p, c);
    }
  }

  lemma SuccessionKeepsStuck(queue: string, s: QueueState, completed: Job, uuid: JobId, cronNext: Option<Time>, now: Time, p: JobId, c: JobId)
    requires Core(s) && StuckWhileRetained(s, p, c) && WellFormedJob(completed.id, completed)
    requires uuid != "" && uuid !in s.jobs && uuid != p
    ensures var next := NextRepeatJob(queue, completed, uuid, cronNext, now);
            var succeeded := if next.Some? then Insert(s, next.value) else s;
            StuckWhileRetained(if completed.parentId.Some? then ReleaseParent(succeeded, completed.parentId.value, now) else succeeded, p, c)
  {
    var next := NextRepeatJob(queue, completed, uuid, cronNext, now);
    var succeeded := if next.Some? then Insert(s, next.value) else s;
    if next.Some? {
      NextRepeatJobIsNew(queue, completed, uuid, cronNext, now);
      InsertKeeps(s, next.value);
      InsertKeepsStuck(s, next.value, p, c);
    }
    if completed.parentId.Some? {
      ReleaseParentIsCalm(succeeded, completed.parentId.value, now);
      CalmMaybeKeepsStuck(succeeded, ReleaseParent(succeeded, completed.parentId.value, now), p, c);
    }
  }

  lemma FailedKeepsStuck(s: QueueState, id: JobId, failed: Job, now: Time, p: JobId, c: JobId)
    requires Core(s) && Stuck(s, p, c) && id in s.jobs && s.jobs[id].state == Active && WellFormedJob(id, failed) && failed.state == Failed
    requires failed.parentId == s.jobs[id].parentId && failed.childIds == s.jobs[id].childIds
    requires failed.lockToken.None? && failed.enqueuedSeq == s.jobs[id].enqueuedSeq
    ensures StuckWhileRetained(React(RetainFinished(RecordWithParent(Put(s, id, failed), failed), id, failed, now), failed, now), p, c)
  {
    FinishKeepsStuck(s, id, failed, now, p, c);
    FinishKeeps(s, id, failed, now);
    var retained := RetainFinished(RecordWithParent(Put(s, id, failed), failed), id, failed, now);
    ReactIsCalm(retained, failed, now);
    CalmMaybeKeepsStuck(retained, React(retained, failed, now), p, c);
  }

  lemma FailKeepsStuck(s: QueueState, id: JobId, token: Token, error: string, allowRetry: bool, backoff: Duration, now: Time, p: JobId, c: JobId)
    requires Core(s) && Stuck(s, p, c)
    ensures StuckWhileRetained(Fail(s, id, token, error, allowRetry, backoff, now).state, p, c)
  {
    if RequireLease(s, id, token).None? {
      assert WellFormedJob(id, s.jobs[id]);
      if allowRetry && ShouldRetry(s.jobs[id]) {
        PutKeepsStuck(s, Put(s, id, RetryingJob(s.jobs[id], error, backoff, now)), id, p, c);
      } else {
        FailedKeepsStuck(s, id, FailedJob(s.jobs[id], error, now), now, p, c);
      }
    }
  }

  // -- Recovery ------------------------------------------------------------------------------

  lemma {:induction false} SettleFailuresKeepStuck(s: QueueState, failures: seq<Job>, now: Time, p: JobId, c: JobId)
    requires Core(s) && StuckWhileRetained(s, p, c)
    requires forall k | 0 <= k < |failures| :: failures[k].id == c ==> failures[k].parentId != Some(p)
    ensures StuckWhileRetained(SettleFailures(s, failures, now), p, c)
    decreases |failures|
  {
    if failures != [] {
      var n := |failures| - 1;
      var before := SettleFailures(s, failures[..n], now);
      SettleFailuresKeepStuck(s, failures[..n], now, p, c);
      SettleFailuresIsCalm(s, failures[..n], now);
      RecordKeepsStuck(before, failures[n], p, c);
      RecordWithParentIsCalm(before, failures[n]);
      if failures[n].options.FailedRetention().Some? {
        var recorded := RecordWithParent(before, failures[n]);
        ApplyRetentionIsCalm(recorded, Failed, failures[n].options.FailedRetention().value, now);
        CalmMaybeKeepsStuck(recorded, SettleFailure(before, failures[n], now), p, c);
      }
    }
  }

  lemma RecoverEachKeepsStuck(s: QueueState, ids: seq<JobId>, now: Time, p: JobId, c: JobId)
    requires Stuck(s, p, c) && NoDuplicates(ids) && forall id | id in ids :: id in s.jobs && s.jobs[id].state == Active
    ensures var t := RecoverEach(s, ids, now); Stuck(t, p, c) && (c in ids ==> c in t.jobs && t.jobs[c].parentId != Some(p))
  {
    RecoverEachFrame(s, ids, now);
    RecoverEachLinks(s, ids, now);
  }

  lemma RecoverStalledKeepsStuck(s: QueueState, now: Time, p: JobId, c: JobId)
    requires Core(s) && Stuck(s, p, c)
    ensures StuckWhileRetained(RecoverStalled(s, now).state, p, c)
  {
    var stalled := Sorted(StalledRanks(s, now), StalledRanks(s, now).Keys);
    var recovered := RecoverEach(s, stalled, now);
    RecoverEachKeeps(s, stalled, now);
    RecoverEachKeepsStuck(s, stalled, now, p, c);
    var failures := FailedAmong(recovered, stalled);
    FailedAmongMeans(recovered, stalled);
    forall k | 0 <= k < |failures| ensures failures[k].id == c ==> failures[k].parentId != Some(p) {
      assert failures[k] in failures;
      var id :| id in stalled && id in recovered.jobs && recovered.jobs[id].state == Failed && recovered.jobs[id] == failures[k];
      assert WellFormedJob(id, recovered.jobs[id]);
    }
    AfterRecoveryKeepsStuck(recovered, failures, now, p, c);
  }

  lemma AfterRecoveryKeepsStuck(s: QueueState, failures: seq<Job>, now: Time, p: JobId, c: JobId)
    requires Core(s) && Stuck(s, p, c)
    requires forall k | 0 <= k < |failures| :: failures[k].id == c ==> failures[k].parentId != Some(p)
    ensures StuckWhileRetained(AfterRecovery(s, failures, now), p, c)
  {
    var removed := RemoveAll(s, RemovedAtOnce(failures));
    RemoveAllIsCalm(s, RemovedAtOnce(failures));
    CalmKeepsStuck(s, removed, p, c);
    SettleFailuresKeepStuck(removed, failures, now, p, c);
    SettleFailuresIsCalm(removed, failures, now);
    var settled := SettleFailures(removed, failures, now);
    ReactionsAreCalm(settled, failures, now);
    CalmMaybeKeepsStuck(settled, Reactions(settled, failures, now), p, c);
  }

  // -- Submitting ------------------------------------------------------------------------------

  /** What the attach check guarantees about a submitted child that happens to be `c`. */
  ghost predicate Honest(s: QueueState, parentId: JobId, child: Job, p: JobId, c: JobId)
  {
    child.id == c ==>
      if parentId == p then c in s.jobs && s.jobs[c].parentId == Some(p)
      else c in s.jobs ==> s.jobs[c].parentId != Some(p)
  }

  lemma RelinkKeepsStuck(s: QueueState, parentId: JobId, child: Job, p: JobId, c: JobId)
    requires Indexes(s) && Stuck(s, p, c) && child.id in s.jobs && Honest(s, parentId, child, p, c)
    requires s.jobs[child.id].id == child.id
    ensures var existing := s.jobs[child.id].(parentId := Some(parentId));
            Stuck(RecordTerminalChild(Put(s, child.id, existing), parentId, existing), p, c)
  {
    var existing := s.jobs[child.id].(parentId := Some(parentId));
    var stored := Put(s, child.id, existing);
    assert Stuck(stored, p, c);
    if parentId in stored.jobs && child.id in stored.jobs[parentId].childIds { RecordEntry(stored, parentId, existing); }
  }

  lemma AttachNewKeepsStuck(s: QueueState, parentId: JobId, child: Job, p: JobId, c: JobId)
    requires Stuck(s, p, c) && child.parentId == Some(parentId) && child.id !in s.jobs && Honest(s, parentId, child, p, c)
    ensures Stuck(Insert(s, child), p, c)
  {
    InsertStores(s, child);
    PutKeepsStuck(s, Insert(s, child), child.id, p, c);
  }

  lemma AttachKeepsStuck(s: QueueState, parentId: JobId, child: Job, p: JobId, c: JobId)
    requires Core(s) && Stuck(s, p, c) && child.parentId == Some(parentId)
    requires Honest(s, parentId, child, p, c)
    ensures Stuck(AttachChild(s, parentId, child), p, c)
  {
    if child.id in s.jobs {
      assert WellFormedJob(child.id, s.jobs[child.id]);
      RelinkKeepsStuck(s, parentId, child, p, c);
    } else {
      AttachNewKeepsStuck(s, parentId, child, p, c);
    }
  }

  /** Attaching the first children says nothing about the next. */
  lemma StillHonest(s: QueueState, t: QueueState, parentId: JobId, children: seq<Job>, n: nat, p: JobId, c: JobId)
    requires n < |children| && AreChildren(parentId, children) && AttachedAll(s, t, parentId, children[..n])
    requires Honest(s, parentId, children[n], p, c)
    ensures Honest(t, parentId, children[n], p, c)
  {
    forall k | 0 <= k < n ensures Ids(children[..n])[k] != children[n].id { assert children[..n][k] == children[k]; }
    assert children[n].id !in Ids(children[..n]);
  }

  ghost predicate AllHonest(s: QueueState, parentId: JobId, children: seq<Job>, p: JobId, c: JobId)
  {
    forall child | child in children :: Honest(s, parentId, child, p, c)
  }

  /** One more child attached after the first `n`. */
  lemma AttachNextKeepsStuck(s: QueueState, parentId: JobId, children: seq<Job>, n: nat, p: JobId, c: JobId)
    requires n < |children| && AreChildren(parentId, children) && AllHonest(s, parentId, children, p, c)
    requires Core(s) && Stuck(AttachChildren(s, parentId, children[..n]), p, c)
    ensures Stuck(AttachChild(AttachChildren(s, parentId, children[..n]), parentId, children[n]), p, c)
  {
    var before := AttachChildren(s, parentId, children[..n]);
    AttachChildrenKeeps(s, parentId, children[..n]);
    AttachFrame(s, parentId, children[..n]);
    StillHonest(s, before, parentId, children, n, p, c);
    AttachKeepsStuck(before, parentId, children[n], p, c);
  }

  lemma PrefixHonest(s: QueueState, parentId: JobId, children: seq<Job>, n: nat, p: JobId, c: JobId)
    requires n <= |children| && AreChildren(parentId, children) && AllHonest(s, parentId, children, p, c)
    ensures AreChildren(parentId, children[..n]) && AllHonest(s, parentId, children[..n], p, c)
  {
  }

  lemma {:induction false} AttachChildrenKeepsStuck(s: QueueState, parentId: JobId, children: seq<Job>, p: JobId, c: JobId)
    requires Core(s) && Stuck(s, p, c) && AreChildren(parentId, children) && AllHonest(s, parentId, children, p, c)
    ensures Stuck(AttachChildren(s, parentId, children), p, c)
    decreases |children|
  {
    if children != [] {
      var n := |children| - 1;
      PrefixHonest(s, parentId, children, n, p, c);
      AttachChildrenKeepsStuck(s, parentId, children[..n], p, c);
      AttachNextKeepsStuck(s, parentId, children, n, p, c);
    }
  }

  /** Children that pass the attach check are honest about `c`. */
  lemma NoConflictIsHonest(s: QueueState, parentId: JobId, listed: seq<JobId>, children: seq<Job>, p: JobId, c: JobId)
    requires FirstConflict(s, parentId, listed, children).None? && p in s.jobs
    requires parentId == p ==> c in listed
    ensures AllHonest(s, parentId, children, p, c)
  {
    NoConflictMeans(s, parentId, listed, children);
    forall child | child in children ensures Honest(s, parentId, child, p, c) {
      var k :| 0 <= k < |children| && children[k] == child;
      assert AttachConflict(s, parentId, listed, children[k].id).None?;
    }
  }

  lemma ScannedKeepsStuck(s: QueueState, children: seq<Job>, taken: set<string>, now: Time, parentId: JobId, p: JobId, c: JobId)
    requires Core(s) && Stuck(s, p, c) && AreChildren(parentId, children)
    requires AllHonest(s, parentId, children, p, c)
    ensures var scan := ScanDeduplication(s, children, taken, now);
            var joining := Unskipped(children, scan.skipped);
            && Core(scan.state) && Stuck(scan.state, p, c) && AreChildren(parentId, joining)
            && AllHonest(scan.state, parentId, joining, p, c)
  {
    var scan := ScanDeduplication(s, children, taken, now);
    ScanKeeps(s, children, taken, now);
    UnskippedAreChildren(parentId, children, scan.skipped);
    ExpirationsKeepStuck(s, scan.state, p, c);
    forall child | child in Unskipped(children, scan.skipped) ensures Honest(scan.state, parentId, child, p, c) {
      assert child in children && Honest(s, parentId, child, p, c);
    }
  }

  lemma ExpirationsKeepStuck(s: QueueState, t: QueueState, p: JobId, c: JobId)
    requires Stuck(s, p, c) && OnlyExpirations(s, t) && t.flowDependencies == s.flowDependencies
    ensures Stuck(t, p, c)
  {
  }

  /** Rewriting the parent's own record says nothing about its children. */
  lemma StayHonest(s: QueueState, linked: QueueState, parentId: JobId, joining: seq<Job>, p: JobId, c: JobId)
    requires AllHonest(s, parentId, joining, p, c) && parentId in s.jobs && parentId in linked.jobs
    requires linked == Put(s, parentId, linked.jobs[parentId]) && linked.jobs[parentId].parentId == s.jobs[parentId].parentId
    ensures AllHonest(linked, parentId, joining, p, c)
  {
    forall child | child in joining ensures Honest(linked, parentId, child, p, c) { assert Honest(s, parentId, child, p, c); }
  }

  /** Children attached to `linked`, and their parent then released. */
  lemma JoinedKeepsStuck(linked: QueueState, parentId: JobId, joining: seq<Job>, now: Time, p: JobId, c: JobId)
    requires Core(linked) && Stuck(linked, p, c) && AreChildren(parentId, joining) && AllHonest(linked, parentId, joining, p, c)
    ensures StuckWhileRetained(ReleaseParent(AttachChildren(linked, parentId, joining), parentId, now), p, c)
  {
    var attached := AttachChildren(linked, parentId, joining);
    AttachChildrenKeepsStuck(linked, parentId, joining, p, c);
    AttachChildrenKeeps(linked, parentId, joining);
    ReleaseParentIsCalm(attached, parentId, now);
    CalmKeepsStuck(attached, ReleaseParent(attached, parentId, now), p, c);
  }

  /** A stored parent takes more children: `parent` is its record, grown. */
  lemma JoinKeepsStuck(s: QueueState, parentId: JobId, parent: Job, joining: seq<Job>, now: Time, p: JobId, c: JobId)
    requires Core(s) && Stuck(s, p, c) && AreChildren(parentId, joining) && parentId in s.jobs
    requires AllHonest(s, parentId, joining, p, c)
    requires WellFormedJob(parentId, parent) && ListsAtLeast(s, parentId, parent)
    requires parent.lockToken.None? || parent.lockToken == s.jobs[parentId].lockToken
    requires parent.enqueuedSeq == s.jobs[parentId].enqueuedSeq && parent.parentId == s.jobs[parentId].parentId
    requires EntryOf(parent) == EntryOf(s.jobs[parentId])
    ensures StuckWhileRetained(JoinFlow(s, parentId, parent, joining, now), p, c)
  {
    PutKeeps(s, parentId, parent);
    PutKeepsStuck(s, Put(s, parentId, parent), parentId, p, c);
    StayHonest(s, Put(s, parentId, parent), parentId, joining, p, c);
    JoinedKeepsStuck(Put(s, parentId, parent), parentId, joining, now, p, c);
  }

  lemma StuckIsListed(s: QueueState, p: JobId, c: JobId)
    requires Core(s) && Stuck(s, p, c)
    ensures c in s.jobs[p].childIds
  {
  }

  lemma GrownKeepsStuck(s: QueueState, parentId: JobId, children: seq<Job>, parked: bool, now: Time, p: JobId, c: JobId)
    requires Core(s) && Stuck(s, p, c) && parentId in s.jobs && AreChildren(parentId, children)
    requires FirstConflict(s, parentId, s.jobs[parentId].childIds, children).None?
    requires parked ==> s.jobs[parentId].state == Active
    ensures var scan := ScanDeduplication(s, children, {}, now);
            var joining := Unskipped(children, scan.skipped);
            var stored := if parked then Parked(scan.state.jobs[parentId]) else scan.state.jobs[parentId];
            && Stuck(scan.state, p, c)
            && StuckWhileRetained(JoinFlow(scan.state, parentId, stored.(childIds := AppendNew(s.jobs[parentId].childIds, Ids(joining))), joining, now), p, c)
  {
    var scan := ScanDeduplication(s, children, {}, now);
    StuckIsListed(s, p, c);
    NoConflictIsHonest(s, parentId, s.jobs[parentId].childIds, children, p, c);
    ScannedKeepsStuck(s, children, {}, now, parentId, p, c);
    ScanKeeps(s, children, {}, now);
    GrowingKeepsStuck(scan.state, parentId, s.jobs[parentId].childIds, Unskipped(children, scan.skipped), parked, now, p, c);
  }

  lemma GrowingKeepsStuck(t: QueueState, parentId: JobId, listed: seq<JobId>, joining: seq<Job>, parked: bool, now: Time, p: JobId, c: JobId)
    requires Core(t) && Stuck(t, p, c) && parentId in t.jobs && AreChildren(parentId, joining) && AllHonest(t, parentId, joining, p, c)
    requires t.jobs[parentId].childIds == listed && (parked ==> t.jobs[parentId].state == Active)
    ensures var stored := if parked then Parked(t.jobs[parentId]) else t.jobs[parentId];
            StuckWhileRetained(JoinFlow(t, parentId, stored.(childIds := AppendNew(listed, Ids(joining))), joining, now), p, c)
  {
    assert WellFormedJob(parentId, t.jobs[parentId]);
    AppendNewContains(listed, Ids(joining));
    var stored := if parked then Parked(t.jobs[parentId]) else t.jobs[parentId];
    JoinKeepsStuck(t, parentId, stored.(childIds := AppendNew(listed, Ids(joining))), joining, now, p, c);
  }

  lemma StartKeepsStuck(s: QueueState, root: Job, joining: seq<Job>, now: Time, p: JobId, c: JobId)
    requires Core(s) && Stuck(s, p, c) && AreChildren(root.id, joining) && root.id !in s.jobs && root.parentId.None?
    requires AllHonest(s, root.id, joining, p, c)
    requires WellFormedJob(root.id, root) && root.state != Active && root.enqueuedSeq == 0
    ensures StuckWhileRetained(StartFlow(s, root, joining, now), p, c)
  {
    var inserted := Insert(s, root);
    InsertKeeps(s, root);
    InsertStores(s, root);
    InsertKeepsStuck(s, root, p, c);
    forall child | child in joining ensures Honest(inserted, root.id, child, p, c) { assert Honest(s, root.id, child, p, c); }
    JoinedKeepsStuck(inserted, root.id, joining, now, p, c);
  }

  lemma ExtendKeepsStuck(s: QueueState, candidate: Job, id: JobId, now: Time, p: JobId, c: JobId)
    requires Stuck(s, p, c)
    ensures Stuck(ExtendExpiration(s, candidate, id, now), p, c)
  {
  }

  lemma AddNewFlowKeepsStuck(s: QueueState, parent: Job, children: seq<Job>, now: Time, p: JobId, c: JobId)
    requires Core(s) && Stuck(s, p, c) && parent.id !in s.jobs && IsNew(parent) && parent.parentId.None?
    requires AreChildren(parent.id, children)
    ensures StuckWhileRetained(AddNewFlow(s, parent, children, now).state, p, c)
  {
    var owner := FindDeduplicationOwner(s, parent, now);
    if owner.Some? {
      ExtendKeepsStuck(s, parent, owner.value, now, p, c);
    } else if FirstConflict(s, parent.id, [], children).None? {
      var taken := if ActiveDeduplicationId(parent, now).Some? then {ActiveDeduplicationId(parent, now).value} else {};
      var scan := ScanDeduplication(s, children, taken, now);
      var joining := Unskipped(children, scan.skipped);
      NoConflictIsHonest(s, parent.id, [], children, p, c);
      ScannedKeepsStuck(s, children, taken, now, parent.id, p, c);
      var root := RootJob(parent, joining, now);
      if !scan.conflict && RepeatKeysFree(scan.state, [root] + Unstored(scan.state, joining)) {
        RootJobWellFormed(parent, joining, now);
        StartKeepsStuck(scan.state, root, joining, now, p, c);
      }
    }
  }

  lemma AddFlowKeepsStuck(s: QueueState, spec: JobSpec, uuid: JobId, specs: seq<JobSpec>, uuids: seq<JobId>, now: Time, p: JobId, c: JobId)
    requires Core(s) && Stuck(s, p, c) && |specs| == |uuids| && uuid != "" && "" !in uuids
    ensures StuckWhileRetained(AddFlow(s, spec, uuid, specs, uuids, now).state, p, c)
  {
    AddFlowCases(s, spec, uuid, specs, uuids, now);
    if AddFlow(s, spec, uuid, specs, uuids, now).state != s {
      var parent := NewJob(s.queue, spec, uuid, now);
      var children := ChildJobs(s.queue, parent.id, specs, uuids, now);
      if parent.id !in s.jobs {
        AddNewFlowKeepsStuck(s, parent, children, now, p, c);
      } else if FirstConflict(s, parent.id, s.jobs[parent.id].childIds, children).None? {
        GrownKeepsStuck(s, parent.id, children, false, now, p, c);
      }
    }
  }

  lemma AddFlowChildrenKeepsStuck(s: QueueState, id: JobId, token: Token, specs: seq<JobSpec>, uuids: seq<JobId>, now: Time, p: JobId, c: JobId)
    requires Core(s) && Stuck(s, p, c) && |specs| == |uuids| && "" !in uuids
    ensures StuckWhileRetained(AddFlowChildren(s, id, token, specs, uuids, now).state, p, c)
  {
    AddFlowChildrenCases(s, id, token, specs, uuids, now);
    var children := ChildJobs(s.queue, id, specs, uuids, now);
    if AddFlowChildren(s, id, token, specs, uuids, now).state != s
       && FirstConflict(s, id, s.jobs[id].childIds, children).None?
    {
      GrownKeepsStuck(s, id, children, true, now, p, c);
    }
  }

  /** A job that a new one replaces has no children, so it is not the stuck parent. */
  lemma OwnerGoneKeepsStuck(s: QueueState, ownerId: JobId, p: JobId, c: JobId)
    requires Core(s) && Stuck(s, p, c) && ownerId in s.jobs && s.jobs[ownerId].childIds == []
    ensures StuckWhileRetained(Remove(s, ownerId), p, c) && p != ownerId && p in Remove(s, ownerId).jobs
  {
    StuckIsListed(s, p, c);
    RemoveIsCalm(s, ownerId);
    CalmKeepsStuck(s, Remove(s, ownerId), p, c);
  }

  lemma ReplacedKeepsStuck(s: QueueState, ownerId: JobId, job: Job, p: JobId, c: JobId)
    requires Core(s) && Stuck(s, p, c) && ownerId in s.jobs && s.jobs[ownerId].childIds == []
    requires job.parentId.None? && (job.id == ownerId || job.id !in s.jobs)
    ensures Stuck(Insert(Remove(s, ownerId), job), p, c)
  {
    OwnerGoneKeepsStuck(s, ownerId, p, c);
    InsertKeepsStuck(Remove(s, ownerId), job, p, c);
    InsertStores(Remove(s, ownerId), job);
  }

  lemma AddJobKeepsStuck(s: QueueState, job: Job, now: Time, p: JobId, c: JobId)
    requires Core(s) && Stuck(s, p, c) && job.parentId.None?
    ensures Stuck(AddJob(s, job, now).state, p, c)
  {
    AddJobCases(s, job, now);
    var owner := FindDeduplicationOwner(s, job, now);
    if job.id in s.jobs {
    } else if owner.None? {
      InsertKeepsStuck(s, job, p, c);
    } else {
      ExtendKeepsStuck(s, job, owner.value, now, p, c);
      if ReplacesDelayedOwner(job, s.jobs[owner.value]) {
        ReplacedKeepsStuck(s, owner.value, PreserveExpiration(job, s.jobs[owner.value]), p, c);
        RemoveIsCalm(s, owner.value);
        CalmKeepsStuck(s, Remove(s, owner.value), p, c);
        StuckIsListed(s, p, c);
      }
    }
  }

  lemma {:induction false} AddJobsKeepsStuck(s: QueueState, jobs: seq<Job>, now: Time, p: JobId, c: JobId)
    requires Core(s) && Stuck(s, p, c) && forall k | 0 <= k < |jobs| :: IsNew(jobs[k]) && jobs[k].parentId.None?
    ensures Stuck(AddJobs(s, jobs, now).state, p, c)
    decreases |jobs|
  {
    if jobs != [] {
      var n := |jobs| - 1;
      AddJobsKeepsStuck(s, jobs[..n], now, p, c);
      AddJobsKeeps(s, jobs[..n], now);
      AddJobKeepsStuck(AddJobs(s, jobs[..n], now).state, jobs[n], now, p, c);
    }
  }

  // -- Management --------------------------------------------------------------------------------

  lemma RequeuedKeepsStuck(s: QueueState, id: JobId, job: Job, p: JobId, c: JobId)
    requires Core(s) && Stuck(s, p, c) && id in s.jobs && id != c
    ensures Stuck(PutInOrder(ForgetReleasedOwner(s, id, s.jobs[id]), id, job), p, c)
    ensures job.childIds == s.jobs[id].childIds ==> Indexes(PutInOrder(ForgetReleasedOwner(s, id, s.jobs[id]), id, job))
  {
    var forgotten := ForgetReleasedOwner(s, id, s.jobs[id]);
    PutInOrderStores(forgotten, id, job);
    PutKeepsStuck(forgotten, PutInOrder(forgotten, id, job), id, p, c);
  }

  lemma RetryKeepsStuck(s: QueueState, id: JobId, now: Time, p: JobId, c: JobId)
    requires Core(s) && Stuck(s, p, c) && id != c
    ensures Stuck(Retry(s, id, now).state, p, c)
  {
    if Retry(s, id, now).reply.Ok? {
      RequeuedKeepsStuck(s, id, RetriedJob(s.jobs[id], now), p, c);
      if s.jobs[id].parentId.Some? {
        RestoreKeepsStuck(PutInOrder(ForgetReleasedOwner(s, id, s.jobs[id]), id, RetriedJob(s.jobs[id], now)), s.jobs[id].parentId.value, id, p, c);
      }
    }
  }

  lemma RestoreKeepsStuck(s: QueueState, parentId: JobId, id: JobId, p: JobId, c: JobId)
    requires Indexes(s) && Stuck(s, p, c) && id != c
    ensures Stuck(RestoreParent(s, parentId, id), p, c)
  {
    ClearEntry(s, parentId, id);
    if RestoreParent(s, parentId, id) != s {
      PutKeepsStuck(ClearChildDependency(s, parentId, id), RestoreParent(s, parentId, id), parentId, p, c);
    }
  }

  lemma DetachedKeepsStuck(s: QueueState, parentId: JobId, childId: JobId, p: JobId, c: JobId)
    requires Core(s) && Stuck(s, p, c) && childId != c && parentId in s.jobs && childId in s.jobs
    ensures Stuck(Detached(s, parentId, childId), p, c)
  {
    DetachedFrame(s, parentId, childId);
    DetachedIndex(s, parentId, childId);
  }

  lemma RemoveChildDependencyKeepsStuck(s: QueueState, childId: JobId, now: Time, p: JobId, c: JobId)
    requires Core(s) && Stuck(s, p, c) && childId != c
    ensures StuckWhileRetained(RemoveChildDependency(s, childId, now).state, p, c)
  {
    if RemoveChildDependency(s, childId, now).reply == Ok(true) {
      var parentId := s.jobs[childId].parentId.value;
      DetachedKeepsStuck(s, parentId, childId, p, c);
      DetachedKeeps(s, parentId, childId);
      var t := Detached(s, parentId, childId);
      ReleaseParentIsCalm(t, parentId, now);
      CalmKeepsStuck(t, ReleaseParent(t, parentId, now), p, c);
    }
  }

  lemma RemoveAndReleaseKeepsStuck(s: QueueState, ids: set<JobId>, parentIds: seq<JobId>, now: Time, p: JobId, c: JobId)
    requires Core(s) && Stuck(s, p, c)
    ensures StuckWhileRetained(ReleaseParents(RemoveAll(s, ids), parentIds, now), p, c)
  {
    RemoveAllIsCalm(s, ids);
    var removed := RemoveAll(s, ids);
    ReleaseParentsIsCalm(removed, parentIds, now);
    CalmTransitive(s, removed, ReleaseParents(removed, parentIds, now));
    CalmKeepsStuck(s, ReleaseParents(removed, parentIds, now), p, c);
  }

  lemma CleanKeepsStuck(s: QueueState, state: JobState, grace: Duration, limit: nat, now: Time, p: JobId, c: JobId)
    requires Core(s) && Stuck(s, p, c)
    ensures StuckWhileRetained(Clean(s, state, grace, limit, now).state, p, c)
  {
    var ranks := CleanRanks(s, state, Earlier(now, grace));
    var ids := Take(Sorted(ranks, ranks.Keys), limit);
    RemoveAndReleaseKeepsStuck(s, Elements(ids), ParentsOf(s, ids), now, p, c);
  }

  lemma DrainKeepsStuck(s: QueueState, includeDelayed: bool, now: Time, p: JobId, c: JobId)
    requires Core(s) && Stuck(s, p, c)
    ensures StuckWhileRetained(Drain(s, includeDelayed, now).state, p, c)
  {
    var ranks := DrainRanks(s, includeDelayed);
    var ids := Sorted(ranks, ranks.Keys);
    RemoveAndReleaseKeepsStuck(s, Elements(ids), ParentsOf(s, ids), now, p, c);
  }

  lemma RemoveJobKeepsStuck(s: QueueState, id: JobId, now: Time, p: JobId, c: JobId)
    requires Core(s) && Stuck(s, p, c)
    ensures StuckWhileRetained(RemoveJob(s, id, now).state, p, c)
  {
    if id in s.jobs {
      RemoveIsCalm(s, id);
      CalmKeepsStuck(s, Remove(s, id), p, c);
      if s.jobs[id].parentId.Some? {
        ReleaseParentIsCalm(Remove(s, id), s.jobs[id].parentId.value, now);
        CalmMaybeKeepsStuck(Remove(s, id), ReleaseParent(Remove(s, id), s.jobs[id].parentId.value, now), p, c);
      }
    }
  }

  lemma RemoveUnprocessedKeepsStuck(s: QueueState, id: JobId, now: Time, p: JobId, c: JobId)
    requires Core(s) && Stuck(s, p, c)
    ensures StuckWhileRetained(RemoveUnprocessedChildren(s, id, now).state, p, c)
  {
    if id in s.jobs {
      var ids := Elements(Descendants.Walk(s.jobs, s.jobs[id].childIds, {}).out);
      RemoveAllIsCalm(s, ids);
      CalmKeepsStuck(s, RemoveAll(s, ids), p, c);
      ReleaseParentIsCalm(RemoveAll(s, ids), id, now);
      CalmMaybeKeepsStuck(RemoveAll(s, ids), ReleaseParent(RemoveAll(s, ids), id, now), p, c);
    }
  }

  /** A rewrite changes neither index, nor links, nor what finished records say. */
  lemma RewriteKeepsStuck(s: QueueState, op: Op, p: JobId, c: JobId)
    requires Core(s) && Stuck(s, p, c) && op.TouchesOne()
    ensures StuckWhileRetained(Rewrite(s, op).state, p, c)
  {
    RewriteIsSteady(s, op);
    TouchedJobsAreRewritten(s, op);
    RewrittenKeepParents(s, Rewrite(s, op).state);
    SteadyKeepsStuck(s, Rewrite(s, op).state, p, c);
  }

  lemma SteadyKeepsStuck(s: QueueState, t: QueueState, p: JobId, c: JobId)
    requires Core(s) && Stuck(s, p, c) && Steady(s, t) && SameParents(s, t)
    ensures StuckWhileRetained(t, p, c)
  {
    StuckIsListed(s, p, c);
    if p in t.jobs {
      assert EntryIn(IndexOf(t, p), c) == Fatal;
      assert c in t.jobs[p].childIds;
    }
  }

  ghost predicate SameParents(s: QueueState, t: QueueState)
  {
    forall x | x in t.jobs :: x in s.jobs && t.jobs[x].parentId == s.jobs[x].parentId
  }

  lemma RewrittenKeepParents(s: QueueState, t: QueueState)
    requires RewrittenAll(s, t)
    ensures SameParents(s, t)
  {
    forall x | x in t.jobs ensures t.jobs[x].parentId == s.jobs[x].parentId { assert Rewritten(s.jobs[x], t.jobs[x]); }
  }

  lemma ClaimKeepsParents(s: QueueState, worker: string, token: Token, leaseFor: Duration, now: Time)
    ensures SameParents(s, ClaimNext(s, worker, token, leaseFor, now).state)
  {
    if !s.paused { PromoteDueKeepsParents(s, now); }
  }

  lemma PromoteDueKeepsParents(s: QueueState, now: Time)
    ensures SameParents(s, PromoteDue(s, now).state)
  {
    PromoteEachFrame(s, Sorted(DueRanks(s, now), DueRanks(s, now).Keys));
  }

  // -- Every operation ------------------------------------------------------------------------------

  /** The two operations that free a parent from a failed child. */
  predicate Frees(op: Op, c: JobId)
  {
    (op.OpRetry? && op.id == c) || (op.OpRemoveChildDependency? && op.id == c)
  }

  lemma AddManyKeepsStuck(s: QueueState, specs: seq<JobSpec>, uuids: seq<JobId>, now: Time, p: JobId, c: JobId)
    requires Core(s) && Stuck(s, p, c) && |specs| == |uuids| && "" !in uuids
    ensures StuckWhileRetained(AddMany(s, specs, uuids, now).state, p, c)
  {
    if forall k | 0 <= k < |specs| :: specs[k].options.ValidAt(now) {
      var jobs := NewJobs(s.queue, specs, uuids, now);
      forall k | 0 <= k < |jobs| ensures IsNew(jobs[k]) && jobs[k].parentId.None? { NewJobIsNew(s.queue, specs[k], uuids[k], now); }
      AddJobsKeepsStuck(s, jobs, now, p, c);
    }
  }

  lemma UpsertKeepsStuck(s: QueueState, spec: JobSpec, uuid: JobId, now: Time, p: JobId, c: JobId)
    requires Core(s) && Stuck(s, p, c)
    ensures StuckWhileRetained(UpsertRepeat(s, spec, uuid, now).state, p, c)
  {
    if UpsertRepeat(s, spec, uuid, now).reply.Ok? {
      var job := NewJob(s.queue, spec, uuid, now);
      var owner := Find(s, RepeatOwners(s, job.repeatKey.value));
      if owner.Some? { ReplacedKeepsStuck(s, owner.value, job, p, c); } else { InsertKeepsStuck(s, job, p, c); }
    }
  }

  lemma SubmitKeepsStuck(s: QueueState, op: Op, p: JobId, c: JobId)
    requires Core(s) && Stuck(s, p, c) && op.WellFormed() && FreshIds(s, op)
    requires op.Submits()
    ensures StuckWhileRetained(Submission(s, op).state, p, c)
  {
    if op.OpAdd? {
      AddJobKeepsStuck(s, NewJob(s.queue, op.spec, op.uuid, op.now), op.now, p, c);
    } else if op.OpAddMany? {
      AddManyKeepsStuck(s, op.specs, op.uuids, op.now, p, c);
    } else if op.OpAddFlow? {
      AddFlowKeepsStuck(s, op.parent, op.uuid, op.specs, op.uuids, op.now, p, c);
    } else if op.OpAddFlowChildren? {
      AddFlowChildrenKeepsStuck(s, op.id, op.token, op.specs, op.uuids, op.now, p, c);
    } else {
      UpsertKeepsStuck(s, op.spec, op.uuid, op.now, p, c);
    }
  }

  lemma CleanUpKeepsStuck(s: QueueState, op: Op, p: JobId, c: JobId)
    requires Core(s) && Stuck(s, p, c) && op.CleansUp() && !Frees(op, c)
    ensures StuckWhileRetained(Removal(s, op).state, p, c)
  {
    match op
    case OpRemoveChildDependency(id, now) => RemoveChildDependencyKeepsStuck(s, id, now, p, c);
    case OpRemoveUnprocessedChildren(id, now) => RemoveUnprocessedKeepsStuck(s, id, now, p, c);
    case OpRemove(id, now) => RemoveJobKeepsStuck(s, id, now, p, c);
    case OpRemoveRepeat(key, now) =>
      var owner := Find(s, RepeatOwners(s, key));
      if owner.Some? { RemoveJobKeepsStuck(s, owner.value, now, p, c); }
    case OpClean(state, grace, limit, now) => CleanKeepsStuck(s, state, grace, limit, now, p, c);
    case OpDrain(includeDelayed, now) => DrainKeepsStuck(s, includeDelayed, now, p, c);
  }

  lemma QueueWorkKeepsStuck(s: QueueState, op: Op, p: JobId, c: JobId)
    requires op.WellFormed() && op.Works() && (op.OpPromoteDue? || op.OpClaim?)
    requires Core(s) && Stuck(s, p, c) && FreshIds(s, op)
    ensures StuckWhileRetained(Work(s, op).state, p, c)
  {
    if op.OpPromoteDue? {
      PromoteDueIsSteady(s, op.now);
      PromoteDueKeepsParents(s, op.now);
    } else {
      ClaimIsSteady(s, op.worker, op.token, op.leaseFor, op.now);
      ClaimKeepsParents(s, op.worker, op.token, op.leaseFor, op.now);
    }
    SteadyKeepsStuck(s, Work(s, op).state, p, c);
  }

  lemma WorkKeepsStuck(s: QueueState, op: Op, p: JobId, c: JobId)
    requires Core(s) && Stuck(s, p, c) && op.Works() && op.WellFormed() && FreshIds(s, op) && !Frees(op, c)
    ensures StuckWhileRetained(Work(s, op).state, p, c)
  {
    if op.OpPromoteDue? || op.OpClaim? {
      QueueWorkKeepsStuck(s, op, p, c);
    } else if op.OpComplete? {
      CompleteKeepsStuck(s, op.id, op.token, op.value, op.uuid, op.cronNext, op.now, p, c);
    } else if op.OpFail? {
      FailKeepsStuck(s, op.id, op.token, op.error, op.allowRetry, op.backoff, op.now, p, c);
    } else if op.OpRecoverStalled? {
      RecoverStalledKeepsStuck(s, op.now, p, c);
    } else {
      RetryKeepsStuck(s, op.id, op.now, p, c);
    }
  }

  /** While the parent is retained, nothing but a retry or a detachment of the child frees it. */
  lemma StepKeepsStuck(s: QueueState, op: Op, p: JobId, c: JobId)
    requires Core(s) && Stuck(s, p, c) && op.WellFormed() && FreshIds(s, op) && !Frees(op, c)
    ensures StuckWhileRetained(Step(s, op).state, p, c)
  {
    if op.Submits() {
      SubmitKeepsStuck(s, op, p, c);
    } else if op.CleansUp() {
      CleanUpKeepsStuck(s, op, p, c);
    } else if op.TouchesOne() {
      RewriteKeepsStuck(s, op, p, c);
    } else {
      WorkKeepsStuck(s, op, p, c);
    }
  }

  // -- Every run ---------------------------------------------------------------------------------------

  /** A run with fresh ids along which `p` stays stored and `c` is neither retried nor detached. */
  ghost predicate Unfreed(s: QueueState, ops: seq<Op>, p: JobId, c: JobId)
    decreases |ops|
  {
    && p in s.jobs
    && (ops == [] || (ops[0].WellFormed() && FreshIds(s, ops[0]) && !Frees(ops[0], c)
                      && Unfreed(Step(s, ops[0]).state, ops[1..], p, c)))
  }

  lemma {:induction false} RunKeepsStuck(s: QueueState, ops: seq<Op>, p: JobId, c: JobId)
    requires forall k | 0 <= k < |ops| :: ops[k].WellFormed()
    requires Core(s) && Stuck(s, p, c) && Unfreed(s, ops, p, c)
    ensures Core(Run(s, ops)) && Stuck(Run(s, ops), p, c)
    decreases |ops|
  {
    if ops != [] {
      StepKeepsCore(s, ops[0]);
      StepKeepsStuck(s, ops[0], p, c);
      RunKeepsStuck(Step(s, ops[0]).state, ops[1..], p, c);
    }
  }

  lemma StuckCannotComplete(s: QueueState, p: JobId, c: JobId, token: Token, value: Value, uuid: JobId, cronNext: Option<Time>, now: Time)
    requires Core(s) && Stuck(s, p, c)
    ensures Complete(s, p, token, value, uuid, cronNext, now).reply.Err?
    ensures Complete(s, p, token, value, uuid, cronNext, now).state == s
  {
    CountsAreBucketSizes(s.jobs[p], s.jobs, IndexOf(s, p), Failure);
    assert WellFormedJob(p, s.jobs[p]);
    assert c in Bucket(s.jobs[p], s.jobs, IndexOf(s, p), Failure);
    assert |Bucket(s.jobs[p], s.jobs, IndexOf(s, p), Failure)| > 0;
  }

  /**
    Sticky failure: after a fail-parent child failure was indexed, every attempt
    to complete the parent errs and changes nothing, at any point of any run
    that keeps the parent and neither retries nor detaches the child, even if
    the child's record was cleaned or evicted meanwhile.
   */
  lemma FailureIsSticky(s: QueueState, ops: seq<Op>, p: JobId, c: JobId, token: Token, value: Value, uuid: JobId, cronNext: Option<Time>, now: Time)
    requires forall k | 0 <= k < |ops| :: ops[k].WellFormed()
    requires Core(s) && Stuck(s, p, c) && Unfreed(s, ops, p, c)
    ensures var t := Run(s, ops);
            Complete(t, p, token, value, uuid, cronNext, now).reply.Err? && Complete(t, p, token, value, uuid, cronNext, now).state == t
  {
    RunKeepsStuck(s, ops, p, c);
    StuckCannotComplete(Run(s, ops), p, c, token, value, uuid, cronNext, now);
  }

  /** How a parent gets stuck: a listed child with the fail-parent policy fails for good. */
  lemma FatalFailureSticks(s: QueueState, p: JobId, c: JobId, token: Token, error: string, now: Time)
    requires Core(s) && RequireLease(s, c, token).None? && s.jobs[c].parentId == Some(p) && p != c
    requires p in s.jobs && c in s.jobs[p].childIds && s.jobs[c].options.failParentOnFailure
    ensures StuckWhileRetained(Fail(s, c, token, error, false, 0, now).state, p, c)
  {
    assert WellFormedJob(c, s.jobs[c]);
    var failed := FailedJob(s.jobs[c], error, now);
    var stored := Put(s, c, failed);
    PutKeeps(s, c, failed);
    RecordEntry(stored, p, failed);
    var recorded := RecordWithParent(stored, failed);
    assert Stuck(recorded, p, c);
    RecordWithParentIsCalm(stored, failed);
    RetainFinishedIsCalm(recorded, c, failed, now);
    var retained := RetainFinished(recorded, c, failed, now);
    CalmKeepsStuck(recorded, retained, p, c);
    ReactIsCalm(retained, failed, now);
    CalmMaybeKeepsStuck(retained, React(retained, failed, now), p, c);
  }
}
