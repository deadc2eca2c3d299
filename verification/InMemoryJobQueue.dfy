/**
  The in-memory queue as the object it is: fields under one mutex, updated in
  place by each operation. Every method is proved to do exactly what the
  specification function of the same operation says.
 */
module InMemoryJobQueues {
  import opened Ordering
  import opened JobTypes
  import opened QueueModel
  import opened CoreInvariant
  import opened CoreSubmit
  import opened CoreLifecycle
  import opened FlowReaders
  import opened Operations
  import opened Steps
  import opened ClaimOrder
  import Repeats = RepeatSeries
  import Owners = DeduplicationOwnership
  import Descendants

  // -- Loops that remove, against the specification that removes a set ---------------------------

  lemma RemoveOneMore(s: QueueState, ids: seq<JobId>, k: nat)
    requires k < |ids|
    ensures Remove(RemoveAll(s, Elements(ids[..k])), ids[k]) == RemoveAll(s, Elements(ids[..k + 1]))
  {
    var before, after := Elements(ids[..k]), Elements(ids[..k + 1]);
    assert ids[..k + 1] == ids[..k] + [ids[k]];
    assert after == before + {ids[k]};
    RemoveIsRemoveAll(RemoveAll(s, before), ids[k]);
    RemoveTwice(s, before, {ids[k]});
  }

  lemma RemoveTwice(s: QueueState, a: set<JobId>, b: set<JobId>)
    ensures RemoveAll(RemoveAll(s, a), b) == RemoveAll(s, a + b)
  {
    var t, u := RemoveAll(RemoveAll(s, a), b), RemoveAll(s, a + b);
    assert t.jobs == u.jobs;
    assert t.flowDependencies == u.flowDependencies;
    forall o ensures o in t.releasedOwners <==> o in u.releasedOwners {}
    assert t.releasedOwners == u.releasedOwners;
  }

  class InMemoryJobQueue {
    const queue: string
    var paused: bool
    var sequence: nat
    var jobs: map<JobId, Job>
    var flowDependencies: map<JobId, DependencyIndex>
    var releasedOwners: set<(string, JobId)>
    var layout: Layout

    function State(): QueueState
      reads this
    {
      QueueState(queue, paused, sequence, jobs, flowDependencies, releasedOwners, layout)
    }

    /** What every reachable queue satisfies. */
    ghost predicate Valid()
      reads this
    {
      Core(State()) && Repeats.UniqueRepeats(State())
    }

    constructor (queue: string, layout: Layout)
      ensures Valid() && State() == EmptyQueue(queue, layout)
    {
      this.queue := queue;
      paused := false;
      sequence := 0;
      jobs := map[];
      flowDependencies := map[];
      releasedOwners := {};
      this.layout := layout;
    }

    // -- Records ------------------------------------------------------------------------------

    /** A waiting job takes the next sequence on its way into the map. */
    method Store(id: JobId, job: Job)
      modifies this`jobs, this`sequence
      ensures State() == PutInOrder(old(State()), id, job)
    {
      if job.state == Waiting {
        sequence := sequence + 1;
        jobs := jobs[id := job.(enqueuedSeq := sequence)];
      } else {
        jobs := jobs[id := job];
      }
    }

    method ForgetReleasedDeduplicationOwner(job: Job, id: JobId)
      modifies this`releasedOwners
      ensures State() == ForgetReleasedOwner(old(State()), id, job)
    {
      if job.options.deduplication.Some? {
        releasedOwners := releasedOwners - {(job.options.deduplication.value.id, id)};
      }
    }

    method InsertNew(job: Job)
      modifies this`jobs, this`sequence, this`releasedOwners
      ensures State() == Insert(old(State()), job)
    {
      ForgetReleasedDeduplicationOwner(job, job.id);
      Store(job.id, job);
    }

    method RemoveJobRecord(id: JobId)
      modifies this`jobs, this`flowDependencies, this`releasedOwners
      ensures State() == QueueModel.Remove(old(State()), id)
    {
      if id in jobs {
        var removed := jobs[id];
        jobs := jobs - {id};
        flowDependencies := flowDependencies - {id};
        ForgetReleasedDeduplicationOwner(removed, id);
      }
    }

    /** Records removed one by one, in the order of the vector. */
    method RemoveJobRecords(ids: seq<JobId>)
      modifies this`jobs, this`flowDependencies, this`releasedOwners
      ensures State() == RemoveAll(old(State()), Elements(ids))
    {
      var k := 0;
      assert ids[..0] == [];
      RemoveNone(State());
      while k < |ids|
        invariant k <= |ids|
        invariant State() == RemoveAll(old(State()), Elements(ids[..k]))
      {
        RemoveOneMore(old(State()), ids, k);
        RemoveJobRecord(ids[k]);
        k := k + 1;
      }
      assert ids[..k] == ids;
    }

    // -- Dependency side index -------------------------------------------------------------------

    method RecordTerminalChildDependency(parentId: JobId, child: Job)
      modifies this`flowDependencies
      ensures State() == RecordTerminalChild(old(State()), parentId, child)
    {
      if parentId !in jobs || child.id !in jobs[parentId].childIds { return; }
      var index := if parentId in flowDependencies then flowDependencies[parentId] else EMPTY_INDEX;
      if child.state == Completed {
        var value := if child.returnValue.Some? then child.returnValue.value else Null;
        index := DependencyIndex(index.processed[child.id := value], index.ignored - {child.id}, index.failed - {child.id});
        flowDependencies := flowDependencies[parentId := index];
      } else if child.state == Failed {
        if child.options.ignoreDependencyOnFailure || child.options.continueParentOnFailure {
          var reason := if child.failedReason.Some? then child.failedReason.value else "";
          index := DependencyIndex(index.processed - {child.id}, index.ignored[child.id := reason], index.failed - {child.id});
          flowDependencies := flowDependencies[parentId := index];
        } else if child.options.failParentOnFailure {
          index := DependencyIndex(index.processed - {child.id}, index.ignored - {child.id}, index.failed + {child.id});
          flowDependencies := flowDependencies[parentId := index];
        } else if child.options.removeDependencyOnFailure {
          ClearChildDependencySideIndex(parentId, child.id);
        }
      }
    }

    method ClearChildDependencySideIndex(parentId: JobId, childId: JobId)
      modifies this`flowDependencies
      ensures State() == ClearChildDependency(old(State()), parentId, childId)
    {
      if parentId !in flowDependencies { return; }
      var index := flowDependencies[parentId];
      if childId in index.processed {
        index := index.(processed := index.processed - {childId});
      } else if childId in index.ignored {
        index := index.(ignored := index.ignored - {childId});
      } else {
        index := index.(failed := index.failed - {childId});
      }
      if index.IsEmpty() {
        flowDependencies := flowDependencies - {parentId};
      } else {
        flowDependencies := flowDependencies[parentId := index];
      }
    }

    method RecordWithParentOf(child: Job)
      modifies this`flowDependencies
      ensures State() == RecordWithParent(old(State()), child)
    {
      if child.parentId.Some? { RecordTerminalChildDependency(child.parentId.value, child); }
    }

    // -- Retention --------------------------------------------------------------------------------

    /** `apply_finished_retention_locked`: collect, sort newest first, evict. */
    method ApplyFinishedRetention(state: JobState, retention: JobRetention, now: Time)
      modifies this`jobs, this`flowDependencies, this`releasedOwners
      ensures State() == ApplyRetention(old(State()), state, retention, now)
    {
      if retention.age.Some? {
        var cutoff := Earlier(now, retention.age.value);
        var ranks := FinishedRanks(State(), state);
        var expired := set id | id in ranks && jobs[id].finishedAt.value <= cutoff;
        assert expired == Expired(State(), state, cutoff);
        var oldestFirst := Sort(ranks, expired);
        RemoveJobRecords(Take(Reverse(oldestFirst), if retention.limit.Some? then retention.limit.value else 1000));
      }
      assert State() == AgePass(old(State()), state, retention, now);
      if retention.count.Some? {
        var ranks := FinishedRanks(State(), state);
        var oldestFirst := Sort(ranks, ranks.Keys);
        RemoveJobRecords(Drop(Reverse(oldestFirst), retention.count.value));
      }
    }

    method RetainFinishedJob(id: JobId, job: Job, now: Time)
      modifies this`jobs, this`flowDependencies, this`releasedOwners
      ensures State() == RetainFinished(old(State()), id, job, now)
    {
      if job.state == Completed {
        if job.options.RemovesCompletedImmediately() {
          RemoveJobRecord(id);
        } else if job.options.CompletedRetention().Some? {
          ApplyFinishedRetention(Completed, job.options.CompletedRetention().value, now);
        }
      } else {
        if job.options.RemovesFailedImmediately() {
          RemoveJobRecord(id);
        } else if job.options.FailedRetention().Some? {
          ApplyFinishedRetention(Failed, job.options.FailedRetention().value, now);
        }
      }
    }

    // -- Parents -----------------------------------------------------------------------------------

    method FailWaitingParent(parentId: JobId, reason: string, now: Time)
      modifies this
      ensures State() == FailParent(old(State()), parentId, reason, now)
    {
      if parentId !in jobs || jobs[parentId].state.IsTerminal() { return; }
      var failed := FailedParent(jobs[parentId], reason, now);
      jobs := jobs[parentId := failed];
      RetainFinishedJob(parentId, failed, now);
    }

    method ContinueParentAfterChildFailure(parentId: JobId, now: Time)
      modifies this
      ensures State() == ContinueParent(old(State()), parentId, now)
    {
      if parentId !in jobs || jobs[parentId].state != WaitingChildren { return; }
      Store(parentId, Resumed(jobs[parentId], None, now));
    }

    method DeferParentFailureAfterChildFailure(parentId: JobId, childId: JobId, now: Time)
      modifies this
      ensures State() == DeferParentFailure(old(State()), parentId, childId, now)
    {
      if parentId !in jobs || jobs[parentId].state.IsTerminal() { return; }
      Store(parentId, Resumed(jobs[parentId], Some(childId), now));
    }

    /** The child scan: stops at the first unfinished child. */
    method ScanParent(childIds: seq<JobId>) returns (readiness: Readiness)
      ensures readiness == ScanChildren(State(), childIds)
    {
      readiness := Ready(None, None);
      var k := 0;
      assert childIds[..0] == [];
      while k < |childIds|
        invariant k <= |childIds|
        invariant readiness.Ready? && readiness == ScanChildren(State(), childIds[..k])
      {
        var id := childIds[k];
        assert childIds[..k + 1][..k] == childIds[..k];
        if id in jobs && jobs[id].state != Completed {
          if jobs[id].state != Failed {
            BlockedStaysBlocked(State(), childIds, k + 1);
            return Blocked;
          } else if jobs[id].options.failParentOnFailure {
            readiness := readiness.(deferred := Some(id));
          } else if !FailureReleasesDependency(jobs[id]) {
            readiness := readiness.(failure := Some(id));
          }
        }
        k := k + 1;
      }
      assert childIds[..k] == childIds;
    }

    method ReleaseParentIfReady(parentId: JobId, now: Time)
      modifies this
      ensures State() == ReleaseParent(old(State()), parentId, now)
    {
      if parentId !in jobs || jobs[parentId].state != WaitingChildren { return; }
      var readiness := ScanParent(jobs[parentId].childIds);
      if readiness.Ready? {
        if readiness.deferred.Some? {
          DeferParentFailureAfterChildFailure(parentId, readiness.deferred.value, now);
        } else if readiness.failure.Some? {
          var child := readiness.failure.value;
          FailWaitingParent(parentId, ChildFailureReason(child, if child in jobs then jobs[child].failedReason else None), now);
        } else {
          ContinueParentAfterChildFailure(parentId, now);
        }
      }
    }

    method ReleaseParentsIfReady(parentIds: seq<JobId>, now: Time)
      modifies this
      ensures State() == ReleaseParents(old(State()), parentIds, now)
    {
      var k := 0;
      assert parentIds[..0] == [];
      while k < |parentIds|
        invariant k <= |parentIds|
        invariant State() == ReleaseParents(old(State()), parentIds[..k], now)
      {
        assert parentIds[..k + 1][..k] == parentIds[..k];
        ReleaseParentIfReady(parentIds[k], now);
        k := k + 1;
      }
      assert parentIds[..k] == parentIds;
    }

    method ReactToFailure(child: Job, now: Time)
      modifies this
      ensures State() == React(old(State()), child, now)
    {
      if child.parentId.None? { return; }
      var parentId := child.parentId.value;
      match ReactionTo(child)
      case Defer => DeferParentFailureAfterChildFailure(parentId, child.id, now);
      case Continue => ContinueParentAfterChildFailure(parentId, now);
      case Release => ReleaseParentIfReady(parentId, now);
      case FailOutright => FailWaitingParent(parentId, ChildFailureReason(child.id, child.failedReason), now);
    }

    // -- Owner lookups --------------------------------------------------------------------------------

    /** `find_active_deduplication_id`: the first match of the iteration order. */
    method FindActiveDeduplicationId(d: string, now: Time) returns (owner: Option<JobId>)
      ensures owner == Find(State(), DeduplicationOwners(State(), d, now))
    {
      var order := Sort(Positions(layout, jobs.Keys), jobs.Keys);
      IterationMeetsAll(State(), order);
      var k := 0;
      while k < |order|
        invariant k <= |order| && forall i | 0 <= i < k :: order[i] !in DeduplicationOwners(State(), d, now)
      {
        if IsDeduplicationOwner(State(), order[k], d, now) {
          FirstMatchIsFound(State(), order, DeduplicationOwners(State(), d, now), k);
          return Some(order[k]);
        }
        k := k + 1;
      }
      return None;
    }

    method FindActiveDeduplicatedJob(candidate: Job, now: Time) returns (owner: Option<JobId>)
      ensures owner == FindDeduplicationOwner(State(), candidate, now)
    {
      var d := ActiveDeduplicationId(candidate, now);
      if d.None? { return None; }
      owner := FindActiveDeduplicationId(d.value, now);
    }

    /** `find_active_repeat_key`. */
    method FindActiveRepeatKey(key: string) returns (owner: Option<JobId>)
      ensures owner == Find(State(), RepeatOwners(State(), key))
    {
      var order := Sort(Positions(layout, jobs.Keys), jobs.Keys);
      IterationMeetsAll(State(), order);
      var k := 0;
      while k < |order|
        invariant k <= |order| && forall i | 0 <= i < k :: order[i] !in RepeatOwners(State(), key)
      {
        if IsRepeatOwner(State(), order[k], key) {
          FirstMatchIsFound(State(), order, RepeatOwners(State(), key), k);
          return Some(order[k]);
        }
        k := k + 1;
      }
      return None;
    }

    method ExtendDeduplicationExpiration(candidate: Job, existingId: JobId, now: Time)
      modifies this`jobs
      ensures State() == ExtendExpiration(old(State()), candidate, existingId, now)
    {
      if candidate.options.deduplication.Some? && candidate.options.deduplication.value.extend
         && candidate.options.deduplication.value.ttl.Some? && existingId in jobs
      {
        jobs := jobs[existingId := jobs[existingId].(deduplicationExpiresAt := DeduplicationExpiration(candidate.options, now))];
      }
    }

    // -- Adding jobs -------------------------------------------------------------------------------------

    method AddUnlessRepeat(job: Job) returns (reply: Result<Job>)
      modifies this
      ensures Out(State(), reply) == AddUnlessRepeating(old(State()), job)
    {
      var key := ActiveRepeatKey(job);
      if key.Some? {
        var owner := FindActiveRepeatKey(key.value);
        if owner.Some? { return Ok(jobs[owner.value]); }
      }
      InsertNew(job);
      return Ok(jobs[job.id]);
    }

    method AddOne(job: Job, now: Time) returns (reply: Result<Job>)
      requires Valid() && IsNew(job)
      modifies this
      ensures Out(State(), reply) == AddJob(old(State()), job, now)
      ensures Valid()
      ensures Owners.UniqueOwners(old(State()), now) ==> Owners.UniqueOwners(State(), now)
    {
      AddJobKeeps(State(), job, now);
      Repeats.AddJobKeepsUnique(State(), job, now);
      if Owners.UniqueOwners(State(), now) { Owners.AddJobKeepsUnique(State(), job, now); }
      if job.id in jobs { return Ok(jobs[job.id]); }
      var owner := FindActiveDeduplicatedJob(job, now);
      if owner.None? {
        reply := AddUnlessRepeat(job);
      } else if ReplacesDelayedOwner(job, jobs[owner.value]) {
        var candidate := PreserveExpiration(job, jobs[owner.value]);
        RemoveJobRecord(owner.value);
        reply := AddUnlessRepeat(candidate);
      } else {
        ExtendDeduplicationExpiration(job, owner.value, now);
        reply := Ok(jobs[owner.value]);
      }
    }

    /** `add_at`. */
    method AddAt(spec: JobSpec, uuid: JobId, now: Time) returns (reply: Result<Job>)
      requires Valid() && uuid != ""
      modifies this
      ensures Out(State(), reply) == Add(old(State()), spec, uuid, now)
      ensures Valid()
      ensures Owners.UniqueOwners(old(State()), now) ==> Owners.UniqueOwners(State(), now)
    {
      if !spec.options.ValidAt(now) { return Err(ConfigError); }
      NewJobIsNew(queue, spec, uuid, now);
      reply := AddOne(NewJob(queue, spec, uuid, now), now);
    }

    method AllOptionsValid(specs: seq<JobSpec>, now: Time) returns (valid: bool)
      ensures valid <==> forall k | 0 <= k < |specs| :: specs[k].options.ValidAt(now)
    {
      var k := 0;
      while k < |specs|
        invariant k <= |specs| && forall i | 0 <= i < k :: specs[i].options.ValidAt(now)
      {
        if !specs[k].options.ValidAt(now) { return false; }
        k := k + 1;
      }
      return true;
    }

    method AddEach(batch: seq<Job>, now: Time) returns (added: seq<Job>)
      requires Valid() && forall k | 0 <= k < |batch| :: IsNew(batch[k])
      modifies this
      ensures Out(State(), added) == AddJobs(old(State()), batch, now)
      ensures Valid()
      ensures Owners.UniqueOwners(old(State()), now) ==> Owners.UniqueOwners(State(), now)
    {
      added := [];
      var k := 0;
      assert batch[..0] == [];
      while k < |batch|
        invariant k <= |batch| && Valid()
        invariant Owners.UniqueOwners(old(State()), now) ==> Owners.UniqueOwners(State(), now)
        invariant Out(State(), added) == AddJobs(old(State()), batch[..k], now)
      {
        AddJobsNext(old(State()), batch, k, now);
        var one := AddOne(batch[k], now);
        if one.Ok? { added := added + [one.value]; }
        k := k + 1;
      }
      assert batch[..k] == batch;
    }

    /** `add_many_at`: options are validated before anything is stored. */
    method AddManyAt(specs: seq<JobSpec>, uuids: seq<JobId>, now: Time) returns (reply: Result<seq<Job>>)
      requires Valid() && |specs| == |uuids| && "" !in uuids
      modifies this
      ensures Out(State(), reply) == AddMany(old(State()), specs, uuids, now)
      ensures Valid()
      ensures Owners.UniqueOwners(old(State()), now) ==> Owners.UniqueOwners(State(), now)
    {
      var valid := AllOptionsValid(specs, now);
      if !valid { return Err(ConfigError); }
      var batch := NewJobs(queue, specs, uuids, now);
      forall k | 0 <= k < |batch| ensures IsNew(batch[k]) { NewJobIsNew(queue, specs[k], uuids[k], now); }
      var added := AddEach(batch, now);
      return Ok(added);
    }

    // -- Flows ---------------------------------------------------------------------------------------------

    /** The attach check, child by child: the first conflict decides. */
    method CheckAttach(parentId: JobId, listed: seq<JobId>, children: seq<Job>) returns (conflict: Option<LaneError>)
      ensures conflict == FirstConflict(State(), parentId, listed, children)
    {
      var k := 0;
      assert children[..0] == [];
      while k < |children|
        invariant k <= |children|
        invariant FirstConflict(State(), parentId, listed, children[..k]).None?
      {
        assert children[..k + 1][..k] == children[..k];
        conflict := AttachConflict(State(), parentId, listed, children[k].id);
        if conflict.Some? {
          ConflictStays(State(), parentId, listed, children, k + 1);
          return;
        }
        k := k + 1;
      }
      assert children[..k] == children;
      return None;
    }

    /** Resolving the children's deduplication ids, extending owners' expirations on the way. */
    method ResolveDeduplication(children: seq<Job>, alreadyTaken: set<string>, now: Time) returns (skipped: set<JobId>, conflict: bool)
      modifies this`jobs
      ensures var scan := ScanDeduplication(old(State()), children, alreadyTaken, now);
              State() == scan.state && skipped == scan.skipped && conflict == scan.conflict
    {
      var taken := alreadyTaken;
      skipped := {};
      var k := 0;
      assert children[..0] == [];
      while k < |children|
        invariant k <= |children|
        invariant Scan(State(), skipped, taken, false) == ScanDeduplication(old(State()), children[..k], alreadyTaken, now)
      {
        var child := children[k];
        assert children[..k + 1][..k] == children[..k];
        var d := ActiveDeduplicationId(child, now);
        if child.id !in jobs && d.Some? {
          var owner := FindActiveDeduplicationId(d.value, now);
          if owner.Some? {
            ExtendDeduplicationExpiration(child, owner.value, now);
            skipped := skipped + {child.id};
          } else if d.value in taken {
            ScanConflictStays(old(State()), children, alreadyTaken, now, k + 1);
            return skipped, true;
          } else {
            taken := taken + {d.value};
          }
        }
        k := k + 1;
      }
      assert children[..k] == children;
      return skipped, false;
    }

    /** Repeat keys about to be taken are free, and no two alike. */
    method RepeatKeysAreFree(candidates: seq<Job>) returns (allFree: bool)
      ensures allFree <==> RepeatKeysFree(State(), candidates)
    {
      var seen: set<string> := {};
      var k := 0;
      while k < |candidates|
        invariant k <= |candidates|
        invariant forall i | 0 <= i < k && ActiveRepeatKey(candidates[i]).Some?
                    :: RepeatOwners(State(), ActiveRepeatKey(candidates[i]).value) == {} && ActiveRepeatKey(candidates[i]).value in seen
        invariant forall key | key in seen :: exists i :: 0 <= i < k && ActiveRepeatKey(candidates[i]) == Some(key)
        invariant forall i, j | 0 <= i < j < k && ActiveRepeatKey(candidates[i]).Some? :: ActiveRepeatKey(candidates[i]) != ActiveRepeatKey(candidates[j])
      {
        var key := ActiveRepeatKey(candidates[k]);
        if key.Some? {
          var owner := FindActiveRepeatKey(key.value);
          if owner.Some? || key.value in seen { return false; }
          seen := seen + {key.value};
        }
        k := k + 1;
      }
      return true;
    }

    method AttachOne(parentId: JobId, child: Job)
      modifies this
      ensures State() == AttachChild(old(State()), parentId, child)
    {
      if child.id in jobs {
        var existing := jobs[child.id].(parentId := Some(parentId));
        jobs := jobs[child.id := existing];
        RecordTerminalChildDependency(parentId, existing);
      } else {
        InsertNew(child);
      }
    }

    method Attach(parentId: JobId, children: seq<Job>)
      modifies this
      ensures State() == AttachChildren(old(State()), parentId, children)
    {
      var k := 0;
      assert children[..0] == [];
      while k < |children|
        invariant k <= |children|
        invariant State() == AttachChildren(old(State()), parentId, children[..k])
      {
        AttachChildrenNext(old(State()), parentId, children, k);
        AttachOne(parentId, children[k]);
        k := k + 1;
      }
      assert children[..k] == children;
    }

    /** `add_flow_for_existing_parent_locked`. */
    method AddFlowForExistingParent(parentId: JobId, children: seq<Job>, now: Time) returns (reply: Result<JobFlow>)
      requires Valid() && parentId in jobs && AreChildren(parentId, children)
      modifies this
      ensures Out(State(), reply) == AddFlowToExisting(old(State()), parentId, children, now)
    {
      var stored := jobs[parentId];
      var conflict := CheckAttach(parentId, stored.childIds, children);
      if conflict.Some? { return Err(conflict.value); }
      var skipped, clash := ResolveDeduplication(children, {}, now);
      var joining := Unskipped(children, skipped);
      var allFree := RepeatKeysAreFree(Unstored(State(), joining));
      if clash || !allFree { return Err(ConfigError); }
      jobs := jobs[parentId := jobs[parentId].(childIds := AppendNew(stored.childIds, Ids(joining)))];
      Attach(parentId, joining);
      var attached := StoredJobs(State(), Ids(joining));
      ReleaseParentIfReady(parentId, now);
      return Ok(JobFlow(if parentId in jobs then jobs[parentId] else stored, attached));
    }

    method AddFlowForNewParent(parent: Job, children: seq<Job>, now: Time) returns (reply: Result<JobFlow>)
      requires Valid() && parent.id !in jobs
      modifies this
      ensures Out(State(), reply) == AddNewFlow(old(State()), parent, children, now)
    {
      var owner := FindActiveDeduplicatedJob(parent, now);
      if owner.Some? {
        var existing := jobs[owner.value];
        ExtendDeduplicationExpiration(parent, owner.value, now);
        return Ok(JobFlow(existing, StoredJobs(State(), existing.childIds)));
      }
      var conflict := CheckAttach(parent.id, [], children);
      if conflict.Some? { return Err(conflict.value); }
      var d := ActiveDeduplicationId(parent, now);
      var taken := if d.Some? then {d.value} else {};
      var skipped, clash := ResolveDeduplication(children, taken, now);
      var joining := Unskipped(children, skipped);
      var root := RootJob(parent, joining, now);
      var allFree := RepeatKeysAreFree([root] + Unstored(State(), joining));
      if clash || !allFree { return Err(ConfigError); }
      InsertNew(root);
      Attach(root.id, joining);
      var attached := StoredJobs(State(), Ids(joining));
      ReleaseParentIfReady(root.id, now);
      return Ok(JobFlow(if root.id in jobs then jobs[root.id] else root, attached));
    }

    /** `add_flow_at`. */
    method AddFlowAt(spec: JobSpec, uuid: JobId, childSpecs: seq<JobSpec>, uuids: seq<JobId>, now: Time) returns (reply: Result<JobFlow>)
      requires Valid() && |childSpecs| == |uuids| && uuid != "" && "" !in uuids
      modifies this
      ensures Out(State(), reply) == AddFlow(old(State()), spec, uuid, childSpecs, uuids, now)
      ensures Valid()
      ensures Owners.UniqueOwners(old(State()), now) ==> Owners.UniqueOwners(State(), now)
    {
      AddFlowKeeps(State(), spec, uuid, childSpecs, uuids, now);
      Repeats.AddFlowKeepsUnique(State(), spec, uuid, childSpecs, uuids, now);
      if Owners.UniqueOwners(State(), now) { Owners.AddFlowKeepsUnique(State(), spec, uuid, childSpecs, uuids, now); }
      if !spec.options.ValidAt(now) || exists k | 0 <= k < |childSpecs| :: !childSpecs[k].options.ValidAt(now) { return Err(ConfigError); }
      var parent := NewJob(queue, spec, uuid, now);
      var children := ChildJobs(queue, parent.id, childSpecs, uuids, now);
      if !NoDuplicates([parent.id] + Ids(children)) { return Err(ConfigError); }
      ChildJobsAreChildren(queue, parent.id, childSpecs, uuids, now);
      if parent.id in jobs { reply := AddFlowForExistingParent(parent.id, children, now); }
      else { reply := AddFlowForNewParent(parent, children, now); }
    }

    /** `add_flow_children_at`. */
    method AddFlowChildrenAt(parentId: JobId, token: Token, specs: seq<JobSpec>, uuids: seq<JobId>, now: Time) returns (reply: Result<seq<Job>>)
      requires Valid() && |specs| == |uuids| && "" !in uuids
      modifies this
      ensures Out(State(), reply) == AddFlowChildren(old(State()), parentId, token, specs, uuids, now)
      ensures Valid()
      ensures Owners.UniqueOwners(old(State()), now) ==> Owners.UniqueOwners(State(), now)
    {
      AddFlowChildrenKeeps(State(), parentId, token, specs, uuids, now);
      Repeats.AddFlowChildrenKeepsUnique(State(), parentId, token, specs, uuids, now);
      if Owners.UniqueOwners(State(), now) { Owners.AddFlowChildrenKeepsUnique(State(), parentId, token, specs, uuids, now); }
      if specs == [] || exists k | 0 <= k < |specs| :: !specs[k].options.ValidAt(now) { return Err(ConfigError); }
      var children := ChildJobs(queue, parentId, specs, uuids, now);
      if !NoDuplicates([parentId] + Ids(children)) { return Err(ConfigError); }
      var lease := RequireLease(State(), parentId, token);
      if lease.Some? { return Err(lease.value); }
      var counts := ReadCounts(jobs[parentId], jobs, IndexOf(State(), parentId));
      if counts.failed > 0 { return Err(JobStateConflict); }
      reply := ParkAndJoin(parentId, children, now);
    }

    method ParkAndJoin(parentId: JobId, children: seq<Job>, now: Time) returns (reply: Result<seq<Job>>)
      requires Valid() && parentId in jobs
      modifies this
      ensures Out(State(), reply) == ParkBehind(old(State()), parentId, children, now)
    {
      var listed := jobs[parentId].childIds;
      var conflict := CheckAttach(parentId, listed, children);
      if conflict.Some? { return Err(conflict.value); }
      var skipped, clash := ResolveDeduplication(children, {}, now);
      var joining := Unskipped(children, skipped);
      var allFree := RepeatKeysAreFree(Unstored(State(), joining));
      if clash || !allFree { return Err(ConfigError); }
      jobs := jobs[parentId := Parked(jobs[parentId]).(childIds := AppendNew(listed, Ids(joining)))];
      Attach(parentId, joining);
      var attached := StoredJobs(State(), Ids(joining));
      ReleaseParentIfReady(parentId, now);
      return Ok(attached);
    }

    /** `remove_unprocessed_children`. */
    method RemoveUnprocessedChildrenOf(parentId: JobId, now: Time) returns (reply: Option<seq<Job>>)
      requires Valid()
      modifies this
      ensures Out(State(), reply) == RemoveUnprocessedChildren(old(State()), parentId, now)
      ensures Valid()
    {
      RemoveUnprocessedChildrenKeeps(State(), parentId, now);
      Repeats.RemoveUnprocessedKeepsUnique(State(), parentId, now);
      if parentId !in jobs { return None; }
      var ids := Descendants.Walk(jobs, jobs[parentId].childIds, {}).out;
      reply := Some(StoredJobs(State(), ids));
      RemoveJobRecords(ids);
      ReleaseParentIfReady(parentId, now);
    }

    /** `remove_child_dependency`. */
    method RemoveChildDependencyOf(childId: JobId, now: Time) returns (reply: Result<bool>)
      requires Valid()
      modifies this
      ensures Out(State(), reply) == RemoveChildDependency(old(State()), childId, now)
      ensures Valid()
    {
      RemoveChildDependencyKeeps(State(), childId, now);
      Repeats.DetachKeepsUnique(State(), childId, now);
      if childId !in jobs { return Err(JobNotFound); }
      if jobs[childId].parentId.None? { return Ok(false); }
      var parentId := jobs[childId].parentId.value;
      if parentId !in jobs { return Err(JobNotFound); }
      if childId !in jobs[parentId].childIds && !IndexOf(State(), parentId).Contains(childId) { return Ok(false); }
      jobs := jobs[parentId := jobs[parentId].(childIds := Without(jobs[parentId].childIds, childId))];
      ClearChildDependencySideIndex(parentId, childId);
      jobs := jobs[childId := jobs[childId].(parentId := None)];
      ReleaseParentIfReady(parentId, now);
      return Ok(true);
    }

    // -- Claiming and finishing --------------------------------------------------------------------------------

    method QueueDueJob(id: JobId)
      modifies this`jobs, this`sequence
      ensures State() == PromoteOne(old(State()), id)
    {
      if id in jobs {
        Store(id, jobs[id].(state := Waiting));
      } else {
        sequence := sequence + 1;
      }
    }

    /** `promote_due_locked`: collect the due jobs, sort them, queue them one by one. */
    method PromoteDueJobs(now: Time) returns (promoted: nat)
      modifies this`jobs, this`sequence
      ensures Out(State(), promoted) == PromoteDue(old(State()), now)
    {
      var ranks := DueRanks(State(), now);
      var due := Sort(ranks, ranks.Keys);
      var k := 0;
      assert due[..0] == [];
      while k < |due|
        invariant k <= |due|
        invariant State() == PromoteEach(old(State()), due[..k])
      {
        PromoteEachNext(old(State()), due, k);
        QueueDueJob(due[k]);
        k := k + 1;
      }
      assert due[..k] == due;
      return |due|;
    }

    /** `min_by(compare_claim_order)` over the waiting jobs. */
    method FirstWaiting() returns (first: Option<JobId>)
      requires Records(State())
      ensures first == Claimable(State())
    {
      first := None;
      var rest := jobs.Keys;
      while rest != {}
        invariant rest <= jobs.Keys && Scanned(State(), WaitingIds(State()) - rest, first)
        decreases |rest|
      {
        var id :| id in rest;
        FirstAmongMore(State(), rest, id, first);
        if jobs[id].state == Waiting {
          if first.None? || CompareClaimOrder(jobs[id], jobs[first.value]) == Less { first := Some(id); }
        }
        rest := rest - {id};
      }
      assert WaitingIds(State()) - {} == WaitingIds(State());
      ClaimableIsFirst(State());
      if first.Some? { FirstIsUnique(State(), WaitingIds(State()), first.value, Claimable(State()).value); }
    }

    /** `claim_next`. */
    method ClaimNextJob(worker: string, token: Token, leaseFor: Duration, now: Time) returns (reply: Option<Job>)
      requires Valid() && FreshToken(State(), token)
      modifies this
      ensures Out(State(), reply) == ClaimNext(old(State()), worker, token, leaseFor, now)
      ensures Valid()
    {
      ClaimKeepsCore(State(), worker, token, leaseFor, now);
      Repeats.ClaimOwnsNothingNew(State(), worker, token, leaseFor, now);
      if paused { return None; }
      PromoteDueKeeps(State(), now);
      var _ := PromoteDueJobs(now);
      var first := FirstWaiting();
      if first.None? || first.value !in jobs { return None; }
      var job := Claimed(jobs[first.value], worker, token, leaseFor, now);
      jobs := jobs[first.value := job];
      return Some(job);
    }

    /** A finished record is stored, indexed with its parent and retained. */
    method FinishJob(id: JobId, finished: Job, now: Time)
      modifies this
      ensures State() == RetainFinished(RecordWithParent(Put(old(State()), id, finished), finished), id, finished, now)
    {
      jobs := jobs[id := finished];
      RecordWithParentOf(finished);
      RetainFinishedJob(id, finished, now);
    }

    /** `complete_job`. */
    method CompleteJob(id: JobId, token: Token, value: Value, uuid: JobId, cronNext: Option<Time>, now: Time) returns (reply: Result<Job>)
      requires Valid() && uuid != "" && uuid !in jobs
      modifies this
      ensures Out(State(), reply) == Complete(old(State()), id, token, value, uuid, cronNext, now)
      ensures Valid()
    {
      CompleteKeeps(State(), id, token, value, uuid, cronNext, now);
      Repeats.CompleteKeepsUnique(State(), id, token, value, uuid, cronNext, now);
      var lease := RequireLease(State(), id, token);
      if lease.Some? { return Err(lease.value); }
      var counts := ReadCounts(jobs[id], jobs, IndexOf(State(), id));
      if counts.unprocessed > 0 || counts.failed > 0 { return Err(JobStateConflict); }
      var completed := CompletedJob(jobs[id], value, now);
      FinishJob(id, completed, now);
      var next := NextRepeatJob(queue, completed, uuid, cronNext, now);
      if next.Some? { InsertNew(next.value); }
      if completed.parentId.Some? { ReleaseParentIfReady(completed.parentId.value, now); }
      return Ok(completed);
    }

    /** `fail_active_job`. */
    method FailActiveJob(id: JobId, token: Token, error: string, allowRetry: bool, backoff: Duration, now: Time) returns (reply: Result<Job>)
      requires Valid()
      modifies this
      ensures Out(State(), reply) == Fail(old(State()), id, token, error, allowRetry, backoff, now)
      ensures Valid()
    {
      FailKeeps(State(), id, token, error, allowRetry, backoff, now);
      Repeats.FailKeepsUnique(State(), id, token, error, allowRetry, backoff, now);
      var lease := RequireLease(State(), id, token);
      if lease.Some? { return Err(lease.value); }
      if allowRetry && ShouldRetry(jobs[id]) {
        var retrying := RetryingJob(jobs[id], error, backoff, now);
        jobs := jobs[id := retrying];
        return Ok(retrying);
      }
      var failed := FailedJob(jobs[id], error, now);
      FinishJob(id, failed, now);
      ReactToFailure(failed, now);
      return Ok(failed);
    }

    /** Rewriting the leased job, if the caller holds it. */
    method RewriteLeased(id: JobId, token: Token, rewritten: Job) returns (reply: Result<Job>)
      modifies this`jobs
      ensures var lease := RequireLease(old(State()), id, token);
              Out(State(), reply) == if lease.Some? then Out(old(State()), Err(lease.value)) else Out(Put(old(State()), id, rewritten), Ok(rewritten))
    {
      var lease := RequireLease(State(), id, token);
      if lease.Some? { return Err(lease.value); }
      jobs := jobs[id := rewritten];
      return Ok(rewritten);
    }

    /** `renew`, `delay_active` and `release_active`. */
    method RenewLease(id: JobId, token: Token, leaseFor: Duration, now: Time) returns (reply: Result<Job>)
      requires Valid()
      modifies this
      ensures Out(State(), reply) == Renew(old(State()), id, token, leaseFor, now)
      ensures Valid()
    {
      RenewKeeps(State(), id, token, leaseFor, now);
      Repeats.RewriteKeepsUnique(State(), OpRenew(id, token, leaseFor, now));
      if id !in jobs { return Err(JobNotFound); }
      reply := RewriteLeased(id, token, jobs[id].(leaseExpiresAt := Some(Later(now, leaseFor))));
    }

    method DelayActiveJob(id: JobId, token: Token, delay: Duration, now: Time) returns (reply: Result<Job>)
      requires Valid()
      modifies this
      ensures Out(State(), reply) == DelayActive(old(State()), id, token, delay, now)
      ensures Valid()
    {
      DelayActiveKeeps(State(), id, token, delay, now);
      Repeats.RewriteKeepsUnique(State(), OpDelayActive(id, token, delay, now));
      if id !in jobs { return Err(JobNotFound); }
      var current := jobs[id];
      reply := RewriteLeased(id, token,
        Unleased(current).(state := Delayed, options := current.options.(delay := Some(delay)), scheduledAt := Later(now, delay),
                           processedAt := None, deferredFailure := None, failedReason := None));
    }

    method ReleaseActiveJob(id: JobId, token: Token, now: Time) returns (reply: Result<Job>)
      requires Valid()
      modifies this
      ensures Out(State(), reply) == ReleaseActive(old(State()), id, token, now)
      ensures Valid()
    {
      ReleaseActiveKeeps(State(), id, token, now);
      Repeats.RewriteKeepsUnique(State(), OpReleaseActive(id, token, now));
      if id !in jobs { return Err(JobNotFound); }
      reply := RewriteLeased(id, token,
        Unleased(jobs[id]).(state := Waiting, scheduledAt := now, processedAt := None, deferredFailure := None,
                            failedReason := None, enqueuedSeq := 0));
    }

    // -- Stalled recovery ----------------------------------------------------------------------------------------

    /** Stalled jobs in lease order: each fails for good, or waits again. */
    method RequeueOrFail(stalled: seq<JobId>, now: Time)
      modifies this`jobs, this`sequence
      ensures State() == RecoverEach(old(State()), stalled, now)
    {
      var k := 0;
      assert stalled[..0] == [];
      while k < |stalled|
        invariant k <= |stalled|
        invariant State() == RecoverEach(old(State()), stalled[..k], now)
      {
        assert stalled[..k + 1][..k] == stalled[..k];
        if stalled[k] in jobs {
          var job := Stalled(jobs[stalled[k]]);
          if job.stalledCount > job.options.maxStalledCount && !IsRepeatSchedulerJob(job) {
            jobs := jobs[stalled[k] := job.(state := Failed, finishedAt := Some(now))];
          } else {
            Store(stalled[k], job.(state := Waiting, processedAt := None));
          }
        }
        k := k + 1;
      }
      assert stalled[..k] == stalled;
    }

    method SettleAll(failures: seq<Job>, now: Time)
      modifies this
      ensures State() == SettleFailures(old(State()), failures, now)
    {
      var k := 0;
      assert failures[..0] == [];
      while k < |failures|
        invariant k <= |failures|
        invariant State() == SettleFailures(old(State()), failures[..k], now)
      {
        assert failures[..k + 1][..k] == failures[..k];
        RecordWithParentOf(failures[k]);
        if failures[k].options.FailedRetention().Some? {
          ApplyFinishedRetention(Failed, failures[k].options.FailedRetention().value, now);
        }
        k := k + 1;
      }
      assert failures[..k] == failures;
    }

    method ReactToAll(failures: seq<Job>, r: Reaction, now: Time)
      modifies this
      ensures State() == ReactAll(old(State()), failures, r, now)
    {
      var k := 0;
      assert failures[..0] == [];
      while k < |failures|
        invariant k <= |failures|
        invariant State() == ReactAll(old(State()), failures[..k], r, now)
      {
        assert failures[..k + 1][..k] == failures[..k];
        if ReactionTo(failures[k]) == r { ReactToFailure(failures[k], now); }
        k := k + 1;
      }
      assert failures[..k] == failures;
    }

    /** `recover_stalled_jobs`. */
    method RecoverStalledJobs(now: Time) returns (recovered: nat)
      requires Valid()
      modifies this
      ensures Out(State(), recovered) == RecoverStalled(old(State()), now)
      ensures Valid()
    {
      RecoverStalledKeeps(State(), now);
      Repeats.RecoverStalledKeepsUnique(State(), now);
      var ranks := StalledRanks(State(), now);
      var stalled := Sort(ranks, ranks.Keys);
      RequeueOrFail(stalled, now);
      var failures := FailedAmong(State(), stalled);
      RemoveEachAtOnce(failures);
      SettleAll(failures, now);
      ReactToAll(failures, Defer, now);
      ReactToAll(failures, Continue, now);
      ReactToAll(failures, Release, now);
      ReactToAll(failures, FailOutright, now);
      return |stalled|;
    }

    /** The failures that keep no record are dropped before anything else happens. */
    method RemoveEachAtOnce(failures: seq<Job>)
      modifies this
      ensures State() == RemoveAll(old(State()), RemovedAtOnce(failures))
    {
      var ids: seq<JobId> := [];
      var k := 0;
      while k < |failures|
        invariant k <= |failures| && State() == old(State())
        invariant Elements(ids) == RemovedAtOnce(failures[..k])
      {
        RemovedAtOnceNext(failures, k);
        if failures[k].options.RemovesFailedImmediately() {
          ElementsNext(ids, failures[k].id);
          ids := ids + [failures[k].id];
        }
        k := k + 1;
      }
      assert failures[..k] == failures;
      assert Elements(ids) == RemovedAtOnce(failures);
      RemoveJobRecords(ids);
    }

    // -- Management ------------------------------------------------------------------------------------------------

    /** `promote`. */
    method PromoteJob(id: JobId, now: Time) returns (reply: Result<Job>)
      requires Valid()
      modifies this
      ensures Out(State(), reply) == Promote(old(State()), id, now)
      ensures Valid()
    {
      PromoteKeeps(State(), id, now);
      Repeats.RewriteKeepsUnique(State(), OpPromote(id, now));
      if id !in jobs { return Err(JobNotFound); }
      if jobs[id].state != Delayed { return Err(JobStateConflict); }
      Store(id, jobs[id].(state := Waiting, scheduledAt := now));
      return Ok(jobs[id]);
    }

    /** `reschedule`. */
    method RescheduleJob(id: JobId, delay: Duration, now: Time) returns (reply: Result<Job>)
      requires Valid()
      modifies this
      ensures Out(State(), reply) == Reschedule(old(State()), id, delay, now)
      ensures Valid()
    {
      RescheduleKeeps(State(), id, delay, now);
      Repeats.RewriteKeepsUnique(State(), OpReschedule(id, delay, now));
      if delay == 0 { return Err(ConfigError); }
      if id !in jobs { return Err(JobNotFound); }
      if jobs[id].state != Delayed { return Err(JobStateConflict); }
      jobs := jobs[id := jobs[id].(options := jobs[id].options.(delay := Some(delay)), scheduledAt := Later(now, delay))];
      return Ok(jobs[id]);
    }

    /** Another job owns what a retry of `id` would reclaim. */
    method RetryWouldConflict(id: JobId, now: Time) returns (conflict: bool)
      requires id in jobs
      ensures conflict <==> RetryConflicts(State(), id, now)
    {
      var d := DeduplicationId(jobs[id]);
      var key := jobs[id].repeatKey;
      var rest := jobs.Keys - {id};
      while rest != {}
        invariant rest <= jobs.Keys - {id}
        invariant forall x | x in jobs && x != id && x !in rest ::
                    && (d.Some? ==> !IsDeduplicationOwner(State(), x, d.value, now))
                    && (key.Some? ==> !IsRepeatOwner(State(), x, key.value))
        decreases |rest|
      {
        var x :| x in rest;
        if (d.Some? && IsDeduplicationOwner(State(), x, d.value, now)) || (key.Some? && IsRepeatOwner(State(), x, key.value)) {
          assert d.Some? && IsDeduplicationOwner(State(), x, d.value, now) ==> x in DeduplicationOwners(State(), d.value, now) - {id};
          assert key.Some? && IsRepeatOwner(State(), x, key.value) ==> x in RepeatOwners(State(), key.value) - {id};
          return true;
        }
        rest := rest - {x};
      }
      return false;
    }

    /** `retry`. */
    method RetryJob(id: JobId, now: Time) returns (reply: Result<Job>)
      requires Valid()
      modifies this
      ensures Out(State(), reply) == Retry(old(State()), id, now)
      ensures Valid()
    {
      RetryKeeps(State(), id, now);
      Repeats.RetryKeepsUnique(State(), id, now);
      if id !in jobs { return Err(JobNotFound); }
      if !jobs[id].state.IsTerminal() { return Err(JobStateConflict); }
      var conflict := RetryWouldConflict(id, now);
      if conflict { return Err(JobStateConflict); }
      var finished := jobs[id];
      ForgetReleasedDeduplicationOwner(finished, id);
      Store(id, RetriedJob(finished, now));
      reply := Ok(jobs[id]);
      if finished.parentId.Some? { RestoreParentDependency(finished.parentId.value, id); }
    }

    /** `restore_parent_dependency_after_child_retry_locked`. */
    method RestoreParentDependency(parentId: JobId, childId: JobId)
      modifies this
      ensures State() == RestoreParent(old(State()), parentId, childId)
    {
      if parentId !in jobs { return; }
      var parent := jobs[parentId];
      if parent.state.IsTerminal() || parent.state == Active || childId !in parent.childIds { return; }
      ClearChildDependencySideIndex(parentId, childId);
      jobs := jobs[parentId := Parked(parent)];
    }

    /** `set_priority_order`. */
    method SetPriorityOrder(id: JobId, priority: nat, lifo: Option<bool>, now: Time) returns (reply: Result<Job>)
      requires Valid()
      modifies this
      ensures Out(State(), reply) == SetPriority(old(State()), id, priority, lifo)
      ensures Valid()
    {
      SetPriorityKeeps(State(), id, priority, lifo);
      Repeats.RewriteKeepsUnique(State(), OpSetPriority(id, priority, lifo, now));
      if priority > MAX_JOB_PRIORITY { return Err(ConfigError); }
      if id !in jobs { return Err(JobNotFound); }
      var current := jobs[id];
      var options := current.options.(priority := priority, lifo := if lifo.Some? then lifo.value else current.options.lifo);
      Store(id, current.(priority := priority, options := options));
      return Ok(jobs[id]);
    }

    /** `remove`. */
    method RemoveById(id: JobId, now: Time) returns (reply: Result<Option<Job>>)
      requires Valid()
      modifies this
      ensures Out(State(), reply) == RemoveJob(old(State()), id, now)
      ensures Valid()
    {
      RemoveJobKeeps(State(), id, now);
      Repeats.RemoveJobKeepsUnique(State(), id, now);
      if id !in jobs { return Ok(None); }
      if !IsRemovable(jobs[id]) { return Err(JobLeaseConflict); }
      var removed := jobs[id];
      RemoveJobRecord(id);
      if removed.parentId.Some? { ReleaseParentIfReady(removed.parentId.value, now); }
      return Ok(Some(removed));
    }

    /** `remove_deduplication_key`. */
    method ReleaseDeduplicationKey(d: string, now: Time) returns (released: bool)
      requires Valid()
      modifies this
      ensures Out(State(), released) == RemoveDeduplicationKey(old(State()), d, now)
      ensures Valid()
    {
      RemoveDeduplicationKeyKeeps(State(), d, now);
      Repeats.RewriteKeepsUnique(State(), OpRemoveDeduplicationKey(d, now));
      if d == "" { return false; }
      var owner := FindActiveDeduplicationId(d, now);
      if owner.None? { return false; }
      releasedOwners := releasedOwners + {(d, owner.value)};
      return true;
    }

    /** Why the job may not take over the series of `owner`. */
    method CheckUpsert(job: Job, owner: Option<JobId>, now: Time) returns (conflict: Option<LaneError>)
      requires owner.Some? ==> owner.value in jobs
      ensures conflict == UpsertConflict(State(), job, owner, now)
    {
      if owner.Some? {
        var existing := jobs[owner.value];
        if !IsRemovable(existing) { return Some(JobLeaseConflict); }
        if existing.parentId.Some? || existing.childIds != [] { return Some(JobStateConflict); }
      }
      if job.id in jobs && owner != Some(job.id) { return Some(ConfigError); }
      var d := DeduplicationId(job);
      if d.None? { return None; }
      var holder := FindActiveDeduplicationId(d.value, now);
      if holder.Some? && owner != holder { return Some(JobStateConflict); }
      return None;
    }

    /** `upsert_repeat`. */
    method UpsertRepeatSeries(spec: JobSpec, uuid: JobId, now: Time) returns (reply: Result<Job>)
      requires Valid() && uuid != ""
      modifies this
      ensures Out(State(), reply) == UpsertRepeat(old(State()), spec, uuid, now)
      ensures Valid()
    {
      UpsertRepeatKeeps(State(), spec, uuid, now);
      Repeats.UpsertKeepsUnique(State(), spec, uuid, now);
      var job := NewJob(queue, spec, uuid, now);
      if !spec.options.ValidAt(now) || spec.options.repeat.None? || job.repeatKey.None? || job.repeatKey.value == "" { return Err(ConfigError); }
      var owner := FindActiveRepeatKey(job.repeatKey.value);
      var conflict := CheckUpsert(job, owner, now);
      if conflict.Some? { return Err(conflict.value); }
      if owner.Some? { RemoveJobRecord(owner.value); }
      InsertNew(job);
      return Ok(jobs[job.id]);
    }

    /** `remove_repeat`. */
    method RemoveRepeatSeries(key: string, now: Time) returns (reply: Result<Option<Job>>)
      requires Valid()
      modifies this
      ensures Out(State(), reply) == RemoveRepeat(old(State()), key, now)
      ensures Valid()
    {
      var owner := FindActiveRepeatKey(key);
      if owner.None? { return Ok(None); }
      reply := RemoveById(owner.value, now);
    }

    /** Records removed in order, then every parent they named released in order. */
    method RemoveAndReleaseParents(ids: seq<JobId>, now: Time)
      modifies this
      ensures State() == RemoveAllAndRelease(old(State()), ids, now)
    {
      var parentIds := ParentsOf(State(), ids);
      RemoveJobRecords(ids);
      ReleaseParentsIfReady(parentIds, now);
    }

    /** `clean`. */
    method CleanFinished(state: JobState, grace: Duration, limit: nat, now: Time) returns (removed: seq<Job>)
      requires Valid()
      modifies this
      ensures Out(State(), removed) == Clean(old(State()), state, grace, limit, now)
      ensures Valid()
    {
      CleanKeeps(State(), state, grace, limit, now);
      Repeats.CleanKeepsUnique(State(), state, grace, limit, now);
      if limit == 0 { return []; }
      var ranks := CleanRanks(State(), state, Earlier(now, grace));
      var oldestFirst := Sort(ranks, ranks.Keys);
      var ids := Take(oldestFirst, limit);
      removed := StoredJobs(State(), ids);
      RemoveAndReleaseParents(ids, now);
    }

    /** In a valid queue every delayed repeat owns its key, so no lookup is needed. */
    method RanksToDrain(includeDelayed: bool) returns (ranks: map<JobId, Rank>)
      requires Valid()
      ensures ranks == DrainRanks(State(), includeDelayed)
    {
      Repeats.DelayedRepeatsOwn(State());
      ranks := map id | id in jobs && (jobs[id].state == Waiting
                                       || (includeDelayed && jobs[id].state == Delayed && jobs[id].repeatKey.None?))
        :: Rank(StateRank(jobs[id].state), jobs[id].priority, jobs[id].scheduledAt, jobs[id].createdAt);
    }

    /** `drain`: a delayed job stays only as the owner of its repeat key. */
    method DrainWaiting(includeDelayed: bool, now: Time) returns (removed: seq<Job>)
      requires Valid()
      modifies this
      ensures Out(State(), removed) == Drain(old(State()), includeDelayed, now)
      ensures Valid()
    {
      DrainKeeps(State(), includeDelayed, now);
      Repeats.DrainKeepsUnique(State(), includeDelayed, now);
      var ranks := RanksToDrain(includeDelayed);
      var ids := Sort(ranks, ranks.Keys);
      removed := StoredJobs(State(), ids);
      RemoveAndReleaseParents(ids, now);
    }

    /** `save_stacktrace`, without the trace itself. */
    method SaveJobStacktrace(id: JobId, reason: string, now: Time) returns (reply: Result<Job>)
      requires Valid()
      modifies this
      ensures Out(State(), reply) == SaveStacktrace(old(State()), id, reason)
      ensures Valid()
    {
      SaveStacktraceKeeps(State(), id, reason);
      Repeats.RewriteKeepsUnique(State(), OpSaveStacktrace(id, reason, now));
      if id !in jobs { return Err(JobNotFound); }
      jobs := jobs[id := jobs[id].(failedReason := Some(reason))];
      return Ok(jobs[id]);
    }

    /** Growth or removals may change the order in which the map yields its entries. */
    method Reorder(layout: Layout)
      requires Valid()
      modifies this`layout
      ensures State() == Rehash(old(State()), layout)
      ensures Valid()
    {
      RehashKeeps(State(), layout);
      Repeats.RewriteKeepsUnique(State(), OpRehash(layout, 0));
      this.layout := layout;
    }

    /** `pause` and `resume`. */
    method PauseOrResume(pausing: bool, now: Time)
      requires Valid()
      modifies this
      ensures State() == SetPaused(old(State()), pausing)
      ensures Valid()
    {
      SetPausedKeeps(State(), pausing);
      Repeats.RewriteKeepsUnique(State(), OpSetPaused(pausing, now));
      paused := pausing;
    }

    method SomeActive() returns (busy: bool)
      ensures busy <==> exists id | id in jobs :: jobs[id].state == Active
    {
      busy := exists id | id in jobs :: jobs[id].state == Active;
    }

    /** `obliterate`: pauses first, and stays paused when it refuses. */
    method ObliterateQueue(force: bool, now: Time) returns (reply: Result<nat>)
      requires Valid()
      modifies this
      ensures Out(State(), reply) == Obliterate(old(State()), force)
      ensures Valid()
    {
      ObliteratedIsValid(State(), force);
      paused := true;
      var busy := SomeActive();
      if !force && busy { return Err(JobStateConflict); }
      var removed := |jobs|;
      jobs := map[];
      flowDependencies := map[];
      releasedOwners := {};
      paused := false;
      return Ok(removed);
    }
  }

  /** What a scan for the first waiting job knows once it has seen `ids`. */
  ghost predicate Scanned(s: QueueState, ids: set<JobId>, first: Option<JobId>)
    requires forall id | id in ids :: id in s.jobs
  {
    if first.None? then ids == {} else IsFirst(s, ids, first.value)
  }

  /** One more record keeps the scan's knowledge, whichever of the two is first. */
  lemma FirstAmongMore(s: QueueState, rest: set<JobId>, id: JobId, first: Option<JobId>)
    requires Records(s) && rest <= s.jobs.Keys && id in rest && Scanned(s, WaitingIds(s) - rest, first)
    ensures s.jobs[id].state != Waiting ==> Scanned(s, WaitingIds(s) - (rest - {id}), first)
    ensures s.jobs[id].state == Waiting ==>
      Scanned(s, WaitingIds(s) - (rest - {id}),
              if first.None? || CompareClaimOrder(s.jobs[id], s.jobs[first.value]) == Less then Some(id) else first)
  {
    var seen, more := WaitingIds(s) - rest, WaitingIds(s) - (rest - {id});
    if s.jobs[id].state != Waiting {
      assert more == seen;
    } else {
      assert more == seen + {id};
      if first.Some? {
        assert more - {id} == seen;
        FirstOfMore(s, more, id, first.value);
        ClaimOrderIsTotal(s.jobs[id], s.jobs[first.value]);
      }
    }
  }

  lemma AttachChildrenNext(s: QueueState, parentId: JobId, children: seq<Job>, k: nat)
    requires k < |children|
    ensures AttachChildren(s, parentId, children[..k + 1]) == AttachChild(AttachChildren(s, parentId, children[..k]), parentId, children[k])
  {
    assert children[..k + 1][..k] == children[..k];
  }

  lemma ObliteratedIsValid(s: QueueState, force: bool)
    requires Core(s) && Repeats.UniqueRepeats(s)
    ensures Core(Obliterate(s, force).state) && Repeats.UniqueRepeats(Obliterate(s, force).state)
  {
    ObliterateKeeps(s, force);
    Repeats.RewriteKeepsUnique(s, OpObliterate(force, 0));
  }

  lemma PromoteEachNext(s: QueueState, ids: seq<JobId>, k: nat)
    requires k < |ids|
    ensures PromoteEach(s, ids[..k + 1]) == PromoteOne(PromoteEach(s, ids[..k]), ids[k])
  {
    assert ids[..k + 1][..k] == ids[..k];
  }

  lemma AddJobsNext(s: QueueState, jobs: seq<Job>, k: nat, now: Time)
    requires k < |jobs|
    ensures var before := AddJobs(s, jobs[..k], now);
            var last := AddJob(before.state, jobs[k], now);
            AddJobs(s, jobs[..k + 1], now) == Out(last.state, before.reply + (if last.reply.Ok? then [last.reply.value] else []))
  {
    assert jobs[..k + 1][..k] == jobs[..k];
  }

  /** Once a child blocks, later children do not unblock. */
  lemma {:induction false} BlockedStaysBlocked(s: QueueState, childIds: seq<JobId>, k: nat)
    requires k <= |childIds| && ScanChildren(s, childIds[..k]).Blocked?
    ensures ScanChildren(s, childIds).Blocked?
    decreases |childIds|
  {
    if k == |childIds| {
      assert childIds[..k] == childIds;
    } else {
      var n := |childIds| - 1;
      assert childIds[..n][..k] == childIds[..k];
      BlockedStaysBlocked(s, childIds[..n], k);
    }
  }

  lemma {:induction false} ConflictStays(s: QueueState, parentId: JobId, listed: seq<JobId>, children: seq<Job>, k: nat)
    requires k <= |children| && FirstConflict(s, parentId, listed, children[..k]).Some?
    ensures FirstConflict(s, parentId, listed, children) == FirstConflict(s, parentId, listed, children[..k])
    decreases |children|
  {
    if k == |children| {
      assert children[..k] == children;
    } else {
      var n := |children| - 1;
      assert children[..n][..k] == children[..k];
      ConflictStays(s, parentId, listed, children[..n], k);
    }
  }

  /** After a conflict the scan changes nothing more. */
  lemma {:induction false} ScanConflictStays(s: QueueState, children: seq<Job>, taken: set<string>, now: Time, k: nat)
    requires k <= |children| && ScanDeduplication(s, children[..k], taken, now).conflict
    ensures ScanDeduplication(s, children, taken, now) == ScanDeduplication(s, children[..k], taken, now)
    decreases |children|
  {
    if k == |children| {
      assert children[..k] == children;
    } else {
      var n := |children| - 1;
      assert children[..n][..k] == children[..k];
      ScanConflictStays(s, children[..n], taken, now, k);
    }
  }

  lemma FirstIsUnique(s: QueueState, ids: set<JobId>, a: JobId, b: JobId)
    requires Records(s) && (forall id | id in ids :: id in s.jobs) && IsFirst(s, ids, a) && IsFirst(s, ids, b)
    ensures a == b
  {
    ClaimOrderIsTotal(s.jobs[a], s.jobs[b]);
  }

  lemma RemovedAtOnceNext(failures: seq<Job>, k: nat)
    requires k < |failures|
    ensures RemovedAtOnce(failures[..k + 1])
         == RemovedAtOnce(failures[..k]) + if failures[k].options.RemovesFailedImmediately() then {failures[k].id} else {}
  {
    var shorter, longer := failures[..k], failures[..k + 1];
    assert forall i | 0 <= i < k :: longer[i] == shorter[i];
    forall id | id in RemovedAtOnce(shorter) ensures id in RemovedAtOnce(longer) {
      var i :| 0 <= i < k && shorter[i].options.RemovesFailedImmediately() && shorter[i].id == id;
      assert longer[i].id == id;
    }
    if failures[k].options.RemovesFailedImmediately() { assert longer[k].id in RemovedAtOnce(longer); }
    forall id | id in RemovedAtOnce(longer) && !(failures[k].options.RemovesFailedImmediately() && id == failures[k].id)
      ensures id in RemovedAtOnce(shorter)
    {
      var i :| 0 <= i <= k && longer[i].options.RemovesFailedImmediately() && longer[i].id == id;
      assert shorter[i].id == id;
    }
  }

  lemma ElementsNext(ids: seq<JobId>, id: JobId)
    ensures Elements(ids + [id]) == Elements(ids) + {id}
  {
  }

  // -- Iterating over the hash map ---------------------------------------------------------------

  /** An iteration meets every entry once. */
  lemma IterationMeetsAll(s: QueueState, order: seq<JobId>)
    requires order == Sorted(Positions(s.layout, s.jobs.Keys), s.jobs.Keys)
    ensures forall id :: id in order <==> id in s.jobs
    ensures SortedBefore(Positions(s.layout, s.jobs.Keys), order)
  {
  }

  /** The first match an iteration meets is the one `find` returns. */
  lemma FirstMatchIsFound(s: QueueState, order: seq<JobId>, matches: set<JobId>, k: nat)
    requires (forall id :: id in order <==> id in s.jobs) && SortedBefore(Positions(s.layout, s.jobs.Keys), order)
    requires k < |order| && order[k] in matches && matches <= s.jobs.Keys
    requires forall i | 0 <= i < k :: order[i] !in matches
    ensures Find(s, matches) == Some(order[k])
  {
    var all, ranks := Positions(s.layout, s.jobs.Keys), Positions(s.layout, matches);
    forall y | y in matches && y != order[k] ensures Before(ranks, order[k], y) {
      var i :| 0 <= i < |order| && order[i] == y;
      assert Before(all, order[k], order[i]);
    }
    LeastUnique(ranks, matches, order[k], Least(ranks, matches));
  }
}
