/**
  A queue restored from its own snapshot differs in its waiting counter and in
  the iteration order of its hash map only.
  This file has the snapshot, the relation between the two queues, and the proof
  that every helper under the operations respects it.
 */
module RestartModel {
  import opened Ordering
  import opened JobTypes
  import opened QueueModel
  import opened CoreInvariant
  import opened FlowReaders
  import opened Operations
  import Descendants
  import Owners = DeduplicationOwnership
  import Repeats = RepeatSeries

  // -- Snapshots ------------------------------------------------------------------------------

  datatype Snapshot = Snapshot(
    queue: string,
    paused: bool,
    jobs: seq<Job>,
    releasedOwners: set<(string, JobId)>,
    indexes: map<JobId, DependencyIndex>)

  /** `compare_list_order`. */
  ghost function ListRanks(s: QueueState): map<JobId, Rank>
  {
    map id | id in s.jobs :: Rank(StateRank(s.jobs[id].state), s.jobs[id].priority, s.jobs[id].scheduledAt, s.jobs[id].createdAt)
  }

  function JobsOf(s: QueueState, ids: seq<JobId>): (jobs: seq<Job>)
    requires forall id | id in ids :: id in s.jobs
    ensures |jobs| == |ids|
    ensures forall k | 0 <= k < |ids| :: ids[k] in s.jobs && jobs[k] == s.jobs[ids[k]]
  {
    seq(|ids|, k requires 0 <= k < |ids| => s.jobs[ids[k]])
  }

  /** All jobs, in listing order. */
  ghost function JobList(s: QueueState): seq<Job>
  {
    JobsOf(s, Sorted(ListRanks(s), s.jobs.Keys))
  }

  /** `snapshot`: events are not represented. */
  ghost function TakeSnapshot(s: QueueState): Snapshot
  {
    Snapshot(s.queue, s.paused, JobList(s), s.releasedOwners,
             Filled(s.flowDependencies))
  }

  function JobsById(jobs: seq<Job>): map<JobId, Job>
  {
    if jobs == [] then map[] else JobsById(jobs[..|jobs| - 1])[jobs[|jobs| - 1].id := jobs[|jobs| - 1]]
  }

  /** The highest waiting sequence in the snapshot, or zero. */
  function HighestSequence(jobs: seq<Job>): nat
  {
    if jobs == [] then 0 else
      var earlier := HighestSequence(jobs[..|jobs| - 1]);
      if jobs[|jobs| - 1].enqueuedSeq > earlier then jobs[|jobs| - 1].enqueuedSeq else earlier
  }

  /** `from_snapshot`. */
  function FromSnapshot(snapshot: Snapshot, layout: Layout): QueueState
  {
    QueueState(snapshot.queue, snapshot.paused, HighestSequence(snapshot.jobs), JobsById(snapshot.jobs),
               map p | p in snapshot.indexes && p != "" && !snapshot.indexes[p].IsEmpty() :: snapshot.indexes[p],
               snapshot.releasedOwners, layout)
  }

  ghost predicate HoldsById(jobs: seq<Job>, m: map<JobId, Job>)
  {
    && (forall id :: id in m <==> exists k :: 0 <= k < |jobs| && jobs[k].id == id)
    && (forall k | 0 <= k < |jobs| :: jobs[k].id in m && m[jobs[k].id] == jobs[k])
  }

  /** A snapshot lists jobs by state in the order of their life, then by priority, schedule, creation and id. */
  predicate ListedFirst(a: Job, b: Job)
  {
    var states := [Waiting, Delayed, Active, WaitingChildren, Completed, Failed];
    || (exists i, j | 0 <= i < j < |states| :: a.state == states[i] && b.state == states[j])
    || (a.state == b.state
        && (a.priority < b.priority || (a.priority == b.priority
        && (a.scheduledAt < b.scheduledAt || (a.scheduledAt == b.scheduledAt
        && (a.createdAt < b.createdAt || (a.createdAt == b.createdAt && IdLess(a.id, b.id))))))))
  }

  lemma StateComesFirst(a: JobState, b: JobState)
    requires StateRank(a) < StateRank(b)
    ensures var states := [Waiting, Delayed, Active, WaitingChildren, Completed, Failed];
            exists i, j | 0 <= i < j < |states| :: a == states[i] && b == states[j]
  {
    var states := [Waiting, Delayed, Active, WaitingChildren, Completed, Failed];
    assert a == states[StateRank(a)] && b == states[StateRank(b)];
  }

  lemma ListOrder(s: QueueState, x: JobId, y: JobId)
    requires Core(s) && x in s.jobs && y in s.jobs && Before(ListRanks(s), x, y)
    ensures ListedFirst(s.jobs[x], s.jobs[y])
  {
    assert WellFormedJob(x, s.jobs[x]) && WellFormedJob(y, s.jobs[y]);
    if StateRank(s.jobs[x].state) < StateRank(s.jobs[y].state) { StateComesFirst(s.jobs[x].state, s.jobs[y].state); }
  }

  lemma ListHoldsAll(s: QueueState)
    requires Core(s)
    ensures var jobs, ids := JobList(s), Sorted(ListRanks(s), s.jobs.Keys);
            && |jobs| == |ids| && (forall k | 0 <= k < |jobs| :: ids[k] in s.jobs && jobs[k] == s.jobs[ids[k]] && jobs[k].id == ids[k])
            && forall x | x in s.jobs :: exists k :: 0 <= k < |jobs| && jobs[k].id == x
  {
    var jobs, ids := JobList(s), Sorted(ListRanks(s), s.jobs.Keys);
    forall k | 0 <= k < |jobs| ensures jobs[k].id == ids[k] { assert WellFormedJob(ids[k], s.jobs[ids[k]]); }
    forall x | x in s.jobs ensures exists k :: 0 <= k < |jobs| && jobs[k].id == x { var k :| 0 <= k < |ids| && ids[k] == x; }
  }

  /** A snapshot holds every record, in that order. */
  lemma SnapshotListsInOrder(s: QueueState)
    requires Core(s)
    ensures var jobs := TakeSnapshot(s).jobs;
            && (forall x | x in s.jobs :: exists k :: 0 <= k < |jobs| && jobs[k].id == x)
            && (forall k | 0 <= k < |jobs| :: jobs[k].id in s.jobs && jobs[k] == s.jobs[jobs[k].id])
            && forall i, j | 0 <= i < j < |jobs| :: ListedFirst(jobs[i], jobs[j])
  {
    var jobs, ids := JobList(s), Sorted(ListRanks(s), s.jobs.Keys);
    ListHoldsAll(s);
    forall i, j | 0 <= i < j < |jobs| ensures ListedFirst(jobs[i], jobs[j]) { ListOrder(s, ids[i], ids[j]); }
  }

  lemma HoldsOneMore(jobs: seq<Job>, m: map<JobId, Job>, job: Job)
    requires HoldsById(jobs, m) && forall k | 0 <= k < |jobs| :: jobs[k].id != job.id
    ensures HoldsById(jobs + [job], m[job.id := job])
  {
    var all, more := jobs + [job], m[job.id := job];
    forall id ensures id in more <==> exists k :: 0 <= k < |all| && all[k].id == id {
      if id == job.id { assert all[|jobs|].id == id; }
      if k :| 0 <= k < |jobs| && jobs[k].id == id { assert all[k].id == id; }
    }
  }

  lemma {:induction false} JobsByIdHolds(jobs: seq<Job>)
    requires forall i, j | 0 <= i < j < |jobs| :: jobs[i].id != jobs[j].id
    ensures HoldsById(jobs, JobsById(jobs))
    decreases |jobs|
  {
    if jobs != [] {
      var n := |jobs| - 1;
      JobsByIdHolds(jobs[..n]);
      HoldsOneMore(jobs[..n], JobsById(jobs[..n]), jobs[n]);
      assert jobs == jobs[..n] + [jobs[n]];
    }
  }

  lemma {:induction false} HighestIsUpperBound(jobs: seq<Job>, bound: nat)
    requires forall k | 0 <= k < |jobs| :: jobs[k].enqueuedSeq <= bound
    ensures HighestSequence(jobs) <= bound
    ensures forall k | 0 <= k < |jobs| :: jobs[k].enqueuedSeq <= HighestSequence(jobs)
    decreases |jobs|
  {
    if jobs != [] {
      var n := |jobs| - 1;
      HighestIsUpperBound(jobs[..n], bound);
      assert forall k | 0 <= k < n :: jobs[..n][k] == jobs[k];
    }
  }

  /** Any listing of all jobs restores the job map and a counter no stored sequence exceeds. */
  lemma ListingRestores(s: QueueState, ids: seq<JobId>)
    requires Core(s) && NoDuplicates(ids) && forall id :: id in ids <==> id in s.jobs
    ensures JobsById(JobsOf(s, ids)) == s.jobs
    ensures HighestSequence(JobsOf(s, ids)) <= s.sequence
    ensures forall id | id in s.jobs :: s.jobs[id].enqueuedSeq <= HighestSequence(JobsOf(s, ids))
  {
    var jobs := JobsOf(s, ids);
    forall k | 0 <= k < |jobs| ensures jobs[k].id == ids[k] && jobs[k].enqueuedSeq <= s.sequence { assert WellFormedJob(ids[k], s.jobs[ids[k]]); }
    JobsByIdHolds(jobs);
    HighestIsUpperBound(jobs, s.sequence);
    forall id | id in s.jobs ensures s.jobs[id].enqueuedSeq <= HighestSequence(jobs) {
      var k :| 0 <= k < |ids| && ids[k] == id;
      assert jobs[k] == s.jobs[id];
    }
    SameListing(s, ids, JobsById(jobs));
  }

  lemma SameListing(s: QueueState, ids: seq<JobId>, m: map<JobId, Job>)
    requires (forall id :: id in ids <==> id in s.jobs) && HoldsById(JobsOf(s, ids), m)
    requires forall k | 0 <= k < |ids| :: JobsOf(s, ids)[k].id == ids[k]
    ensures m == s.jobs
  {
    var jobs := JobsOf(s, ids);
    forall id | id in s.jobs ensures id in m && m[id] == s.jobs[id] {
      var k :| 0 <= k < |ids| && ids[k] == id;
      assert jobs[k].id == id && jobs[k] == s.jobs[id];
    }
    forall id | id in m ensures id in s.jobs {
      var k :| 0 <= k < |jobs| && jobs[k].id == id;
      assert ids[k] == id;
    }
  }

  function Filled(indexes: map<JobId, DependencyIndex>): map<JobId, DependencyIndex>
  {
    map p | p in indexes && !indexes[p].IsEmpty() :: indexes[p]
  }

  lemma AllFilled(indexes: map<JobId, DependencyIndex>)
    requires forall p | p in indexes :: p != "" && !indexes[p].IsEmpty()
    ensures Filled(indexes) == indexes
    ensures (map p | p in indexes && p != "" && !indexes[p].IsEmpty() :: indexes[p]) == indexes
  {
  }

  lemma CoreIndexesFilled(s: QueueState)
    requires Core(s)
    ensures forall p | p in s.flowDependencies :: p != "" && !s.flowDependencies[p].IsEmpty()
  {
    forall p | p in s.flowDependencies ensures p != "" && !s.flowDependencies[p].IsEmpty() {
      assert WellFormedIndex(s.flowDependencies[p], s.jobs[p].childIds) && WellFormedJob(p, s.jobs[p]);
    }
  }

  lemma IndexesRestored(s: QueueState, layout: Layout)
    requires Core(s)
    ensures FromSnapshot(TakeSnapshot(s), layout).flowDependencies == s.flowDependencies
  {
    CoreIndexesFilled(s);
    AllFilled(s.flowDependencies);
    assert TakeSnapshot(s).indexes == s.flowDependencies;
  }

  /**
    A snapshot restores everything but the order of the hash map and the waiting
    counter, which may come out lower, yet is still at least every stored
    waiting sequence.
   */
  lemma SnapshotRestoresAllButSequence(s: QueueState, layout: Layout)
    requires Core(s)
    ensures var r := FromSnapshot(TakeSnapshot(s), layout);
            && r == s.(sequence := r.sequence, layout := layout) && r.sequence <= s.sequence
            && forall id | id in s.jobs :: s.jobs[id].enqueuedSeq <= r.sequence
  {
    ListingRestores(s, Sorted(ListRanks(s), s.jobs.Keys));
    IndexesRestored(s, layout);
  }

  // -- The relation -------------------------------------------------------------------------------

  /** Sequences handed out after the snapshot are `gap` lower in the restored queue; `kept` was its counter. */
  datatype Lag = Lag(kept: nat, gap: nat)

  predicate InRange(k: Lag, e: nat) { e <= k.kept || e > k.kept + k.gap }

  function Lowered(k: Lag, e: nat): nat
  {
    if e > k.kept + k.gap then e - k.gap else e
  }

  predicate SimJob(k: Lag, a: Job, b: Job)
  {
    InRange(k, a.enqueuedSeq) && b == a.(enqueuedSeq := Lowered(k, a.enqueuedSeq))
  }

  ghost predicate Sim(k: Lag, s: QueueState, t: QueueState)
  {
    && t.queue == s.queue && t.paused == s.paused
    && t.flowDependencies == s.flowDependencies && t.releasedOwners == s.releasedOwners
    && s.sequence >= k.kept + k.gap && t.sequence == s.sequence - k.gap
    && t.jobs.Keys == s.jobs.Keys
    && forall id | id in s.jobs :: SimJob(k, s.jobs[id], t.jobs[id])
  }

  ghost predicate SimJobs(k: Lag, xs: seq<Job>, ys: seq<Job>)
  {
    |xs| == |ys| && forall i | 0 <= i < |xs| :: SimJob(k, xs[i], ys[i])
  }

  // -- Records -----------------------------------------------------------------------------------------

  lemma PutSim(k: Lag, s: QueueState, t: QueueState, id: JobId, a: Job, b: Job)
    requires Sim(k, s, t) && SimJob(k, a, b)
    ensures Sim(k, Put(s, id, a), Put(t, id, b))
  {
  }

  lemma PutInOrderSim(k: Lag, s: QueueState, t: QueueState, id: JobId, a: Job, b: Job)
    requires Sim(k, s, t) && SimJob(k, a, b)
    ensures Sim(k, PutInOrder(s, id, a), PutInOrder(t, id, b))
  {
    if a.state == Waiting {
      PutSim(k, s.(sequence := s.sequence + 1), t.(sequence := t.sequence + 1), id,
             a.(enqueuedSeq := s.sequence + 1), b.(enqueuedSeq := t.sequence + 1));
    } else {
      PutSim(k, s, t, id, a, b);
    }
  }

  lemma InsertSim(k: Lag, s: QueueState, t: QueueState, a: Job, b: Job)
    requires Sim(k, s, t) && SimJob(k, a, b)
    ensures Sim(k, Insert(s, a), Insert(t, b))
  {
    PutInOrderSim(k, ForgetReleasedOwner(s, a.id, a), ForgetReleasedOwner(t, b.id, b), a.id, a, b);
  }

  lemma RemoveAllSim(k: Lag, s: QueueState, t: QueueState, ids: set<JobId>)
    requires Sim(k, s, t)
    ensures Sim(k, RemoveAll(s, ids), RemoveAll(t, ids))
  {
    var u, v := RemoveAll(s, ids), RemoveAll(t, ids);
    assert u.releasedOwners == v.releasedOwners by {
      forall o ensures o in u.releasedOwners <==> o in v.releasedOwners {
        if o.1 in s.jobs { assert SimJob(k, s.jobs[o.1], t.jobs[o.1]); }
      }
    }
  }

  lemma RemoveSim(k: Lag, s: QueueState, t: QueueState, id: JobId)
    requires Sim(k, s, t)
    ensures Sim(k, Remove(s, id), Remove(t, id))
  {
    RemoveIsRemoveAll(s, id);
    RemoveIsRemoveAll(t, id);
    RemoveAllSim(k, s, t, {id});
  }

  // -- Index ----------------------------------------------------------------------------------------------

  /** Only the index may differ afterwards, and it ends up the same. */
  lemma IndexedSim(k: Lag, s: QueueState, t: QueueState, u: QueueState, v: QueueState)
    requires Sim(k, s, t) && u == s.(flowDependencies := u.flowDependencies) && v == t.(flowDependencies := u.flowDependencies)
    ensures Sim(k, u, v)
  {
  }

  lemma RecordSim(k: Lag, s: QueueState, t: QueueState, p: JobId, a: Job, b: Job)
    requires Sim(k, s, t) && SimJob(k, a, b)
    ensures Sim(k, RecordTerminalChild(s, p, a), RecordTerminalChild(t, p, b))
  {
    if p in s.jobs { StoredRecordSim(k, s, t, p, a, b); }
  }

  lemma RecordOnlyIndexes(s: QueueState, p: JobId, child: Job)
    ensures var t := RecordTerminalChild(s, p, child); t == s.(flowDependencies := t.flowDependencies)
  {
  }

  lemma RecordSameIndexes(s: QueueState, t: QueueState, p: JobId, a: Job, b: Job)
    requires t.flowDependencies == s.flowDependencies && p in s.jobs && p in t.jobs && t.jobs[p].childIds == s.jobs[p].childIds
    requires b.id == a.id && b.state == a.state && b.options == a.options && b.returnValue == a.returnValue && b.failedReason == a.failedReason
    ensures RecordTerminalChild(t, p, b).flowDependencies == RecordTerminalChild(s, p, a).flowDependencies
  {
  }

  lemma StoredRecordSim(k: Lag, s: QueueState, t: QueueState, p: JobId, a: Job, b: Job)
    requires Sim(k, s, t) && SimJob(k, a, b) && p in s.jobs
    ensures Sim(k, RecordTerminalChild(s, p, a), RecordTerminalChild(t, p, b))
  {
    assert SimJob(k, s.jobs[p], t.jobs[p]);
    RecordOnlyIndexes(s, p, a);
    RecordOnlyIndexes(t, p, b);
    RecordSameIndexes(s, t, p, a, b);
    IndexedSim(k, s, t, RecordTerminalChild(s, p, a), RecordTerminalChild(t, p, b));
  }

  lemma RecordWithParentSim(k: Lag, s: QueueState, t: QueueState, a: Job, b: Job)
    requires Sim(k, s, t) && SimJob(k, a, b)
    ensures Sim(k, RecordWithParent(s, a), RecordWithParent(t, b))
  {
    if a.parentId.Some? { RecordSim(k, s, t, a.parentId.value, a, b); }
  }

  lemma ClearSim(k: Lag, s: QueueState, t: QueueState, p: JobId, c: JobId)
    requires Sim(k, s, t)
    ensures Sim(k, ClearChildDependency(s, p, c), ClearChildDependency(t, p, c))
  {
    IndexedSim(k, s, t, ClearChildDependency(s, p, c), ClearChildDependency(t, p, c));
  }

  // -- Retention ---------------------------------------------------------------------------------------------

  lemma FinishedRanksSame(k: Lag, s: QueueState, t: QueueState, state: JobState)
    requires Sim(k, s, t)
    ensures FinishedRanks(t, state) == FinishedRanks(s, state)
  {
    forall id | id in s.jobs ensures t.jobs[id].state == s.jobs[id].state && t.jobs[id].finishedAt == s.jobs[id].finishedAt {
      assert SimJob(k, s.jobs[id], t.jobs[id]);
    }
  }

  lemma ExpiredSame(k: Lag, s: QueueState, t: QueueState, state: JobState, cutoff: Time)
    requires Sim(k, s, t)
    ensures Expired(t, state, cutoff) == Expired(s, state, cutoff)
  {
    FinishedRanksSame(k, s, t, state);
    forall id | id in s.jobs ensures t.jobs[id].finishedAt == s.jobs[id].finishedAt { assert SimJob(k, s.jobs[id], t.jobs[id]); }
  }

  lemma RetentionSim(k: Lag, s: QueueState, t: QueueState, state: JobState, retention: JobRetention, now: Time)
    requires Sim(k, s, t)
    ensures Sim(k, ApplyRetention(s, state, retention, now), ApplyRetention(t, state, retention, now))
  {
    FinishedRanksSame(k, s, t, state);
    var s1, t1 := AgePass(s, state, retention, now), AgePass(t, state, retention, now);
    if retention.age.Some? { ExpiredSame(k, s, t, state, Earlier(now, retention.age.value)); }
    assert AgePassEvicts(t, state, retention, now) == AgePassEvicts(s, state, retention, now);
    RetentionOnlyRemoves(s, state, retention, now);
    RetentionOnlyRemoves(t, state, retention, now);
    RemoveAllSim(k, s, t, AgePassEvicts(s, state, retention, now));
    FinishedRanksSame(k, s1, t1, state);
    RetentionOnlyRemoves(s1, state, retention, now);
    RetentionOnlyRemoves(t1, state, retention, now);
    assert CountPassEvicts(t1, state, retention) == CountPassEvicts(s1, state, retention);
    RemoveAllSim(k, s1, t1, CountPassEvicts(s1, state, retention));
  }

  lemma RetainSim(k: Lag, s: QueueState, t: QueueState, id: JobId, a: Job, b: Job, now: Time)
    requires Sim(k, s, t) && SimJob(k, a, b)
    ensures Sim(k, RetainFinished(s, id, a, now), RetainFinished(t, id, b, now))
  {
    RemoveSim(k, s, t, id);
    if a.options.CompletedRetention().Some? { RetentionSim(k, s, t, Completed, a.options.CompletedRetention().value, now); }
    if a.options.FailedRetention().Some? { RetentionSim(k, s, t, Failed, a.options.FailedRetention().value, now); }
  }

  /** Storing a finished job, indexing it and retaining it. */
  lemma FinishSim(k: Lag, s: QueueState, t: QueueState, id: JobId, a: Job, b: Job, now: Time)
    requires Sim(k, s, t) && SimJob(k, a, b)
    ensures Sim(k, RetainFinished(RecordWithParent(Put(s, id, a), a), id, a, now),
                   RetainFinished(RecordWithParent(Put(t, id, b), b), id, b, now))
  {
    PutSim(k, s, t, id, a, b);
    RecordWithParentSim(k, Put(s, id, a), Put(t, id, b), a, b);
    RetainSim(k, RecordWithParent(Put(s, id, a), a), RecordWithParent(Put(t, id, b), b), id, a, b, now);
  }

  // -- Parents --------------------------------------------------------------------------------------------------

  lemma FailParentSim(k: Lag, s: QueueState, t: QueueState, p: JobId, reason: string, now: Time)
    requires Sim(k, s, t)
    ensures Sim(k, FailParent(s, p, reason, now), FailParent(t, p, reason, now))
  {
    if p in s.jobs {
      assert SimJob(k, s.jobs[p], t.jobs[p]);
      var a, b := FailedParent(s.jobs[p], reason, now), FailedParent(t.jobs[p], reason, now);
      PutSim(k, s, t, p, a, b);
      RetainSim(k, Put(s, p, a), Put(t, p, b), p, a, b, now);
    }
  }

  lemma ContinueSim(k: Lag, s: QueueState, t: QueueState, p: JobId, now: Time)
    requires Sim(k, s, t)
    ensures Sim(k, ContinueParent(s, p, now), ContinueParent(t, p, now))
  {
    if p in s.jobs {
      assert SimJob(k, s.jobs[p], t.jobs[p]);
      PutInOrderSim(k, s, t, p, Resumed(s.jobs[p], None, now), Resumed(t.jobs[p], None, now));
    }
  }

  lemma DeferSim(k: Lag, s: QueueState, t: QueueState, p: JobId, c: JobId, now: Time)
    requires Sim(k, s, t)
    ensures Sim(k, DeferParentFailure(s, p, c, now), DeferParentFailure(t, p, c, now))
  {
    if p in s.jobs {
      assert SimJob(k, s.jobs[p], t.jobs[p]);
      PutInOrderSim(k, s, t, p, Resumed(s.jobs[p], Some(c), now), Resumed(t.jobs[p], Some(c), now));
    }
  }

  lemma {:induction false} ScanSame(k: Lag, s: QueueState, t: QueueState, childIds: seq<JobId>)
    requires Sim(k, s, t)
    ensures ScanChildren(t, childIds) == ScanChildren(s, childIds)
    decreases |childIds|
  {
    if childIds != [] {
      var n := |childIds| - 1;
      ScanSame(k, s, t, childIds[..n]);
      if childIds[n] in s.jobs { assert SimJob(k, s.jobs[childIds[n]], t.jobs[childIds[n]]); }
    }
  }

  lemma ReleaseSim(k: Lag, s: QueueState, t: QueueState, p: JobId, now: Time)
    requires Sim(k, s, t)
    ensures Sim(k, ReleaseParent(s, p, now), ReleaseParent(t, p, now))
  {
    if p in s.jobs {
      assert SimJob(k, s.jobs[p], t.jobs[p]);
      ScanSame(k, s, t, s.jobs[p].childIds);
      match ScanChildren(s, s.jobs[p].childIds)
      case Blocked =>
      case Ready(Some(c), _) => DeferSim(k, s, t, p, c, now);
      case Ready(None, Some(c)) =>
        if c in s.jobs { assert SimJob(k, s.jobs[c], t.jobs[c]); }
        FailParentSim(k, s, t, p, ChildFailureReason(c, if c in s.jobs then s.jobs[c].failedReason else None), now);
      case Ready(None, None) => ContinueSim(k, s, t, p, now);
    }
  }

  lemma {:induction false} ReleaseAllSim(k: Lag, s: QueueState, t: QueueState, parentIds: seq<JobId>, now: Time)
    requires Sim(k, s, t)
    ensures Sim(k, ReleaseParents(s, parentIds, now), ReleaseParents(t, parentIds, now))
    decreases |parentIds|
  {
    if parentIds != [] {
      var n := |parentIds| - 1;
      ReleaseAllSim(k, s, t, parentIds[..n], now);
      ReleaseSim(k, ReleaseParents(s, parentIds[..n], now), ReleaseParents(t, parentIds[..n], now), parentIds[n], now);
    }
  }

  lemma RestoreSim(k: Lag, s: QueueState, t: QueueState, p: JobId, c: JobId)
    requires Sim(k, s, t)
    ensures Sim(k, RestoreParent(s, p, c), RestoreParent(t, p, c))
  {
    if p in s.jobs {
      assert SimJob(k, s.jobs[p], t.jobs[p]);
      ClearSim(k, s, t, p, c);
      PutSim(k, ClearChildDependency(s, p, c), ClearChildDependency(t, p, c), p, Parked(s.jobs[p]), Parked(t.jobs[p]));
    }
  }

  lemma ReactSim(k: Lag, s: QueueState, t: QueueState, a: Job, b: Job, now: Time)
    requires Sim(k, s, t) && SimJob(k, a, b)
    ensures Sim(k, React(s, a, now), React(t, b, now))
  {
    if a.parentId.Some? {
      var p := a.parentId.value;
      match ReactionTo(a)
      case Defer => DeferSim(k, s, t, p, a.id, now);
      case Continue => ContinueSim(k, s, t, p, now);
      case Release => ReleaseSim(k, s, t, p, now);
      case FailOutright => FailParentSim(k, s, t, p, ChildFailureReason(a.id, a.failedReason), now);
    }
  }

  // -- Owners -------------------------------------------------------------------------------------------------------

  lemma DeduplicationOwnersSame(k: Lag, s: QueueState, t: QueueState, d: string, now: Time)
    requires Sim(k, s, t)
    ensures DeduplicationOwners(t, d, now) == DeduplicationOwners(s, d, now)
  {
    forall id | id in s.jobs ensures IsDeduplicationOwner(t, id, d, now) <==> IsDeduplicationOwner(s, id, d, now) {
      assert SimJob(k, s.jobs[id], t.jobs[id]);
    }
  }

  lemma RepeatOwnersSame(k: Lag, s: QueueState, t: QueueState, key: string)
    requires Sim(k, s, t)
    ensures RepeatOwners(t, key) == RepeatOwners(s, key)
  {
    forall id | id in s.jobs ensures IsRepeatOwner(t, id, key) <==> IsRepeatOwner(s, id, key) {
      assert SimJob(k, s.jobs[id], t.jobs[id]);
    }
  }

  /** Where an id has one owner at most, the order of the map does not matter. */
  lemma OwnerLookupSame(k: Lag, s: QueueState, t: QueueState, d: string, now: Time)
    requires Sim(k, s, t) && Owners.UniqueOwners(s, now)
    ensures DeduplicationOwners(t, d, now) == DeduplicationOwners(s, d, now)
    ensures Find(t, DeduplicationOwners(t, d, now)) == Find(s, DeduplicationOwners(s, d, now))
  {
    DeduplicationOwnersSame(k, s, t, d, now);
  }

  lemma RepeatLookupSame(k: Lag, s: QueueState, t: QueueState, key: string)
    requires Sim(k, s, t) && Repeats.UniqueRepeats(s)
    ensures RepeatOwners(t, key) == RepeatOwners(s, key)
    ensures Find(t, RepeatOwners(t, key)) == Find(s, RepeatOwners(s, key))
  {
    RepeatOwnersSame(k, s, t, key);
  }

  lemma ExtendSim(k: Lag, s: QueueState, t: QueueState, candidate: Job, id: JobId, now: Time)
    requires Sim(k, s, t)
    ensures Sim(k, ExtendExpiration(s, candidate, id, now), ExtendExpiration(t, candidate, id, now))
  {
    if id in s.jobs {
      assert SimJob(k, s.jobs[id], t.jobs[id]);
      PutSim(k, s, t, id,
             s.jobs[id].(deduplicationExpiresAt := DeduplicationExpiration(candidate.options, now)),
             t.jobs[id].(deduplicationExpiresAt := DeduplicationExpiration(candidate.options, now)));
    }
  }

  // -- Replies ----------------------------------------------------------------------------------------------------------

  lemma {:induction false} StoredSim(k: Lag, s: QueueState, t: QueueState, ids: seq<JobId>)
    requires Sim(k, s, t)
    ensures SimJobs(k, StoredJobs(s, ids), StoredJobs(t, ids))
    decreases |ids|
  {
    if ids != [] {
      var n := |ids| - 1;
      StoredSim(k, s, t, ids[..n]);
      if ids[n] in s.jobs { assert SimJob(k, s.jobs[ids[n]], t.jobs[ids[n]]); }
    }
  }

  // -- Readers ----------------------------------------------------------------------------------------------------------

  lemma {:induction false} CountsSame(k: Lag, s: QueueState, t: QueueState, index: DependencyIndex, childIds: seq<JobId>)
    requires Sim(k, s, t)
    ensures CountsFrom(t.jobs, index, childIds) == CountsFrom(s.jobs, index, childIds)
    decreases |childIds|
  {
    if childIds != [] {
      var n := |childIds| - 1;
      CountsSame(k, s, t, index, childIds[..n]);
      if childIds[n] in s.jobs { assert SimJob(k, s.jobs[childIds[n]], t.jobs[childIds[n]]); }
    }
  }

  lemma ChildCountsSame(k: Lag, s: QueueState, t: QueueState, p: JobId)
    requires Sim(k, s, t) && p in s.jobs
    ensures ChildCounts(t, p) == ChildCounts(s, p)
  {
    assert SimJob(k, s.jobs[p], t.jobs[p]);
    CountsSame(k, s, t, IndexOf(s, p), s.jobs[p].childIds);
  }

  lemma {:induction false} WalkSame(k: Lag, s: QueueState, t: QueueState, childIds: seq<JobId>, seen: set<JobId>)
    requires Sim(k, s, t)
    ensures Descendants.Walk(t.jobs, childIds, seen) == Descendants.Walk(s.jobs, childIds, seen)
    decreases |s.jobs.Keys - seen|, |childIds|
  {
    if childIds != [] {
      var id := childIds[0];
      if id in seen {
        WalkSame(k, s, t, childIds[1..], seen);
      } else {
        Descendants.Shrinks(s.jobs.Keys, seen, seen + {id});
        if id in s.jobs { assert SimJob(k, s.jobs[id], t.jobs[id]); }
        if !Descendants.Removable(s.jobs, id) {
          WalkSame(k, s, t, childIds[1..], seen + {id});
        } else {
          Descendants.StrictlyShrinks(s.jobs.Keys, seen, id);
          var inner := Descendants.Walk(s.jobs, s.jobs[id].childIds, seen + {id});
          Descendants.Shrinks(s.jobs.Keys, seen, inner.seen);
          WalkSame(k, s, t, s.jobs[id].childIds, seen + {id});
          WalkSame(k, s, t, childIds[1..], inner.seen);
        }
      }
    }
  }

  // -- Claim order ---------------------------------------------------------------------------------------------------------

  /** Lowering later sequences changes no comparison. */
  lemma ClaimOrderSame(k: Lag, a: Job, b: Job, c: Job, d: Job)
    requires SimJob(k, a, c) && SimJob(k, b, d)
    ensures CompareClaimOrder(c, d) == CompareClaimOrder(a, b)
  {
    assert c.enqueuedSeq < d.enqueuedSeq <==> a.enqueuedSeq < b.enqueuedSeq;
    assert c.enqueuedSeq > d.enqueuedSeq <==> a.enqueuedSeq > b.enqueuedSeq;
    assert CompareWaitingOrder(c, d) == CompareWaitingOrder(a, b);
  }

  lemma ClaimableSame(k: Lag, s: QueueState, t: QueueState)
    requires Sim(k, s, t)
    ensures ClaimableIds(t) == ClaimableIds(s)
  {
    forall id | id in s.jobs ensures IsClaimable(t, id) <==> IsClaimable(s, id) {
      assert SimJob(k, s.jobs[id], t.jobs[id]);
      forall other | other in s.jobs
        ensures t.jobs[other].state == s.jobs[other].state
             && CompareClaimOrder(t.jobs[id], t.jobs[other]) == CompareClaimOrder(s.jobs[id], s.jobs[other])
      {
        assert SimJob(k, s.jobs[other], t.jobs[other]);
        ClaimOrderSame(k, s.jobs[id], s.jobs[other], t.jobs[id], t.jobs[other]);
      }
    }
  }

  lemma DueRanksSame(k: Lag, s: QueueState, t: QueueState, now: Time)
    requires Sim(k, s, t)
    ensures DueRanks(t, now) == DueRanks(s, now)
  {
    forall id | id in s.jobs ensures t.jobs[id] == s.jobs[id].(enqueuedSeq := t.jobs[id].enqueuedSeq) { assert SimJob(k, s.jobs[id], t.jobs[id]); }
  }

  lemma {:induction false} PromoteEachSim(k: Lag, s: QueueState, t: QueueState, ids: seq<JobId>)
    requires Sim(k, s, t)
    ensures Sim(k, PromoteEach(s, ids), PromoteEach(t, ids))
    decreases |ids|
  {
    if ids != [] {
      var n := |ids| - 1;
      PromoteEachSim(k, s, t, ids[..n]);
      var u, v := PromoteEach(s, ids[..n]), PromoteEach(t, ids[..n]);
      if ids[n] in u.jobs {
        assert SimJob(k, u.jobs[ids[n]], v.jobs[ids[n]]);
        PutInOrderSim(k, u, v, ids[n], u.jobs[ids[n]].(state := Waiting), v.jobs[ids[n]].(state := Waiting));
      }
    }
  }

  lemma PromoteDueSim(k: Lag, s: QueueState, t: QueueState, now: Time)
    requires Sim(k, s, t)
    ensures Sim(k, PromoteDue(s, now).state, PromoteDue(t, now).state)
    ensures PromoteDue(t, now).reply == PromoteDue(s, now).reply
  {
    DueRanksSame(k, s, t, now);
    PromoteEachSim(k, s, t, Sorted(DueRanks(s, now), DueRanks(s, now).Keys));
  }

  // -- Recovery ------------------------------------------------------------------------------------------------------------------

  lemma StalledRanksSame(k: Lag, s: QueueState, t: QueueState, now: Time)
    requires Sim(k, s, t)
    ensures StalledRanks(t, now) == StalledRanks(s, now)
  {
    forall id | id in s.jobs ensures t.jobs[id] == s.jobs[id].(enqueuedSeq := t.jobs[id].enqueuedSeq) { assert SimJob(k, s.jobs[id], t.jobs[id]); }
  }

  lemma RecoveredSim(k: Lag, s: QueueState, t: QueueState, id: JobId, now: Time)
    requires Sim(k, s, t) && id in s.jobs
    ensures Sim(k, Recovered(s, id, now), Recovered(t, id, now))
  {
    assert SimJob(k, s.jobs[id], t.jobs[id]);
    var a, b := Stalled(s.jobs[id]), Stalled(t.jobs[id]);
    PutSim(k, s, t, id, a.(state := Failed, finishedAt := Some(now)), b.(state := Failed, finishedAt := Some(now)));
    PutInOrderSim(k, s, t, id, a.(state := Waiting, processedAt := None), b.(state := Waiting, processedAt := None));
  }

  lemma {:induction false} RecoverEachSim(k: Lag, s: QueueState, t: QueueState, ids: seq<JobId>, now: Time)
    requires Sim(k, s, t)
    ensures Sim(k, RecoverEach(s, ids, now), RecoverEach(t, ids, now))
    decreases |ids|
  {
    if ids != [] {
      var n := |ids| - 1;
      RecoverEachSim(k, s, t, ids[..n], now);
      if ids[n] in RecoverEach(s, ids[..n], now).jobs {
        RecoveredSim(k, RecoverEach(s, ids[..n], now), RecoverEach(t, ids[..n], now), ids[n], now);
      }
    }
  }

  lemma {:induction false} FailedAmongSim(k: Lag, s: QueueState, t: QueueState, ids: seq<JobId>)
    requires Sim(k, s, t)
    ensures SimJobs(k, FailedAmong(s, ids), FailedAmong(t, ids))
    decreases |ids|
  {
    if ids != [] {
      var n := |ids| - 1;
      FailedAmongSim(k, s, t, ids[..n]);
      if ids[n] in s.jobs { assert SimJob(k, s.jobs[ids[n]], t.jobs[ids[n]]); }
    }
  }

  lemma RemovedAtOnceSame(k: Lag, xs: seq<Job>, ys: seq<Job>)
    requires SimJobs(k, xs, ys)
    ensures RemovedAtOnce(ys) == RemovedAtOnce(xs)
  {
    forall i | 0 <= i < |xs| ensures ys[i].id == xs[i].id && ys[i].options == xs[i].options { assert SimJob(k, xs[i], ys[i]); }
    forall id ensures id in RemovedAtOnce(ys) <==> id in RemovedAtOnce(xs) {
      if id in RemovedAtOnce(xs) {
        var i :| 0 <= i < |xs| && xs[i].options.RemovesFailedImmediately() && id == xs[i].id;
        assert ys[i].id == id && ys[i].options.RemovesFailedImmediately();
      }
      if id in RemovedAtOnce(ys) {
        var i :| 0 <= i < |ys| && ys[i].options.RemovesFailedImmediately() && id == ys[i].id;
        assert xs[i].id == id && xs[i].options.RemovesFailedImmediately();
      }
    }
  }

  lemma {:induction false} SettleAllSim(k: Lag, s: QueueState, t: QueueState, xs: seq<Job>, ys: seq<Job>, now: Time)
    requires Sim(k, s, t) && SimJobs(k, xs, ys)
    ensures Sim(k, SettleFailures(s, xs, now), SettleFailures(t, ys, now))
    decreases |xs|
  {
    if xs != [] {
      var n := |xs| - 1;
      assert SimJobs(k, xs[..n], ys[..n]);
      SettleAllSim(k, s, t, xs[..n], ys[..n], now);
      var u, v := SettleFailures(s, xs[..n], now), SettleFailures(t, ys[..n], now);
      assert SimJob(k, xs[n], ys[n]);
      RecordWithParentSim(k, u, v, xs[n], ys[n]);
      if xs[n].options.FailedRetention().Some? {
        RetentionSim(k, RecordWithParent(u, xs[n]), RecordWithParent(v, ys[n]), Failed, xs[n].options.FailedRetention().value, now);
      }
    }
  }

  lemma {:induction false} ReactAllSim(k: Lag, s: QueueState, t: QueueState, xs: seq<Job>, ys: seq<Job>, r: Reaction, now: Time)
    requires Sim(k, s, t) && SimJobs(k, xs, ys)
    ensures Sim(k, ReactAll(s, xs, r, now), ReactAll(t, ys, r, now))
    decreases |xs|
  {
    if xs != [] {
      var n := |xs| - 1;
      assert SimJobs(k, xs[..n], ys[..n]);
      ReactAllSim(k, s, t, xs[..n], ys[..n], r, now);
      assert SimJob(k, xs[n], ys[n]);
      ReactSim(k, ReactAll(s, xs[..n], r, now), ReactAll(t, ys[..n], r, now), xs[n], ys[n], now);
    }
  }

  lemma ReactionsSim(k: Lag, s: QueueState, t: QueueState, xs: seq<Job>, ys: seq<Job>, now: Time)
    requires Sim(k, s, t) && SimJobs(k, xs, ys)
    ensures Sim(k, Reactions(s, xs, now), Reactions(t, ys, now))
  {
    ReactAllSim(k, s, t, xs, ys, Defer, now);
    var s1, t1 := ReactAll(s, xs, Defer, now), ReactAll(t, ys, Defer, now);
    ReactAllSim(k, s1, t1, xs, ys, Continue, now);
    var s2, t2 := ReactAll(s1, xs, Continue, now), ReactAll(t1, ys, Continue, now);
    ReactAllSim(k, s2, t2, xs, ys, Release, now);
    ReactAllSim(k, ReactAll(s2, xs, Release, now), ReactAll(t2, ys, Release, now), xs, ys, FailOutright, now);
  }

  lemma AfterRecoverySim(k: Lag, s: QueueState, t: QueueState, xs: seq<Job>, ys: seq<Job>, now: Time)
    requires Sim(k, s, t) && SimJobs(k, xs, ys)
    ensures Sim(k, AfterRecovery(s, xs, now), AfterRecovery(t, ys, now))
  {
    RemovedAtOnceSame(k, xs, ys);
    var u, v := RemoveAll(s, RemovedAtOnce(xs)), RemoveAll(t, RemovedAtOnce(ys));
    RemoveAllSim(k, s, t, RemovedAtOnce(xs));
    SettleAllSim(k, u, v, xs, ys, now);
    ReactionsSim(k, SettleFailures(u, xs, now), SettleFailures(v, ys, now), xs, ys, now);
  }

  lemma RecoverStalledSim(k: Lag, s: QueueState, t: QueueState, now: Time)
    requires Sim(k, s, t)
    ensures Sim(k, RecoverStalled(s, now).state, RecoverStalled(t, now).state)
    ensures RecoverStalled(t, now).reply == RecoverStalled(s, now).reply
  {
    StalledRanksSame(k, s, t, now);
    var ids := Sorted(StalledRanks(s, now), StalledRanks(s, now).Keys);
    RecoverEachSim(k, s, t, ids, now);
    var u, v := RecoverEach(s, ids, now), RecoverEach(t, ids, now);
    FailedAmongSim(k, u, v, ids);
    AfterRecoverySim(k, u, v, FailedAmong(u, ids), FailedAmong(v, ids), now);
  }
}
