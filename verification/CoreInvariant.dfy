/**
  What every reachable queue state satisfies, and what the helpers that clean up
  after an operation may and may not do to the stored jobs.
 */
module CoreInvariant {
  import opened Ordering
  import opened JobTypes
  import opened QueueModel

  // -- Invariants -------------------------------------------------------------

  /** A job is leased exactly while it is active. */
  predicate WellLeased(job: Job)
  {
    && (job.lockToken.Some? <==> job.state == Active)
    && (job.workerId.Some? <==> job.state == Active)
    && (job.leaseExpiresAt.Some? <==> job.state == Active)
  }

  predicate WellFormedJob(id: JobId, job: Job)
  {
    && job.id == id && id != ""
    && job.options.Valid()
    && WellLeased(job)
    && (job.finishedAt.Some? <==> job.state.IsTerminal())
    && (job.state == Completed ==> job.returnValue.Some?)
    && NoDuplicates(job.childIds)
    && (job.repeatKey.Some? <==> job.options.repeat.Some?)
    && (job.options.repeat.Some? && job.options.repeat.value.limit.Some?
        ==> job.repeatCount < job.options.repeat.value.limit.value)
  }

  ghost predicate Records(s: QueueState)
  {
    forall id | id in s.jobs :: WellFormedJob(id, s.jobs[id])
  }

  /** No two jobs hold the same lock token. */
  ghost predicate Tokens(s: QueueState)
  {
    forall a, b | a in s.jobs && b in s.jobs && a != b && s.jobs[a].lockToken.Some?
      :: s.jobs[a].lockToken != s.jobs[b].lockToken
  }

  /** Waiting sequences are at most the counter, and distinct unless zero. */
  ghost predicate Sequences(s: QueueState)
  {
    && (forall a | a in s.jobs :: s.jobs[a].enqueuedSeq <= s.sequence)
    && (forall a, b | a in s.jobs && b in s.jobs && a != b && s.jobs[a].enqueuedSeq != 0
          :: s.jobs[a].enqueuedSeq != s.jobs[b].enqueuedSeq)
  }

  /** Buckets are disjoint, not all empty, and hold only listed children. */
  predicate WellFormedIndex(index: DependencyIndex, childIds: seq<JobId>)
  {
    && !index.IsEmpty()
    && (forall c | c in index.processed :: c in childIds && c !in index.ignored && c !in index.failed)
    && (forall c | c in index.ignored :: c in childIds && c !in index.failed)
    && (forall c | c in index.failed :: c in childIds)
  }

  ghost predicate Indexes(s: QueueState)
  {
    forall p | p in s.flowDependencies :: p in s.jobs && WellFormedIndex(s.flowDependencies[p], s.jobs[p].childIds)
  }

  ghost predicate Core(s: QueueState)
  {
    Records(s) && Tokens(s) && Sequences(s) && Indexes(s)
  }

  // -- Aftermath --------------------------------------------------------------

  /** How the record of a bystander may change: it may lose its lease or be moved between live states. */
  predicate CalmJob(before: Job, after: Job)
  {
    && after.id == before.id && after.name == before.name && after.options == before.options
    && after.priority == before.priority
    && after.createdAt == before.createdAt && after.scheduledAt == before.scheduledAt
    && after.attemptsMade == before.attemptsMade && after.stalledCount == before.stalledCount
    && after.parentId == before.parentId && after.childIds == before.childIds
    && after.repeatKey == before.repeatKey && after.repeatCount == before.repeatCount
    && after.deduplicationExpiresAt == before.deduplicationExpiresAt
    && after.returnValue == before.returnValue
    && (after.state == Active ==> after == before)
    && (after.state == WaitingChildren ==> before.state == WaitingChildren)
    && (before.state.IsTerminal() ==> after == before)
  }

  /** No job appears, none is claimed or revived, and no owner key is freed but by removal. */
  ghost predicate Calm(s: QueueState, t: QueueState)
  {
    && t.queue == s.queue && t.paused == s.paused && s.sequence <= t.sequence
    && t.jobs.Keys <= s.jobs.Keys
    && (forall id | id in t.jobs :: CalmJob(s.jobs[id], t.jobs[id]))
    && (forall id | id in t.jobs :: t.jobs[id].enqueuedSeq == s.jobs[id].enqueuedSeq || s.sequence < t.jobs[id].enqueuedSeq)
    && t.releasedOwners <= s.releasedOwners
    && (forall o | o in s.releasedOwners && o.1 in t.jobs :: o in t.releasedOwners)
  }

  /** Retained parents keep their side index. */
  ghost predicate SameIndexes(s: QueueState, t: QueueState)
  {
    forall p | p in t.jobs :: IndexOf(t, p) == IndexOf(s, p)
  }

  lemma CalmReflexive(s: QueueState)
    ensures Calm(s, s) && SameIndexes(s, s)
  {
  }

  lemma CalmTransitive(s: QueueState, t: QueueState, u: QueueState)
    requires Calm(s, t) && Calm(t, u)
    ensures Calm(s, u)
    ensures SameIndexes(s, t) && SameIndexes(t, u) ==> SameIndexes(s, u)
  {
    forall id | id in u.jobs ensures CalmJob(s.jobs[id], u.jobs[id])
      && (u.jobs[id].enqueuedSeq == s.jobs[id].enqueuedSeq || s.sequence < u.jobs[id].enqueuedSeq) {
      assert id in t.jobs && CalmJob(s.jobs[id], t.jobs[id]) && CalmJob(t.jobs[id], u.jobs[id]);
    }
  }

  // -- Storing ----------------------------------------------------------------

  /** The lock token of a stored job, if the id is stored. */
  function TokenOf(s: QueueState, id: JobId): Option<Token>
  {
    if id in s.jobs then s.jobs[id].lockToken else None
  }

  ghost predicate ListsAtLeast(s: QueueState, id: JobId, job: Job)
  {
    id in s.jobs ==> forall c | c in s.jobs[id].childIds :: c in job.childIds
  }

  lemma PutKeepsTokens(s: QueueState, id: JobId, job: Job)
    requires Tokens(s)
    requires job.lockToken.None? || job.lockToken == TokenOf(s, id)
             || forall a | a in s.jobs :: s.jobs[a].lockToken != job.lockToken
    ensures Tokens(Put(s, id, job))
  {
  }

  lemma PutKeepsSequences(s: QueueState, id: JobId, job: Job)
    requires Sequences(s)
    requires job.enqueuedSeq == 0 || (id in s.jobs && job.enqueuedSeq == s.jobs[id].enqueuedSeq)
    ensures Sequences(Put(s, id, job))
  {
  }

  lemma PutKeepsRecords(s: QueueState, id: JobId, job: Job)
    requires Records(s) && Tokens(s) && Sequences(s) && WellFormedJob(id, job)
    requires job.lockToken.None? || job.lockToken == TokenOf(s, id)
             || forall a | a in s.jobs :: s.jobs[a].lockToken != job.lockToken
    requires job.enqueuedSeq == 0 || (id in s.jobs && job.enqueuedSeq == s.jobs[id].enqueuedSeq)
    ensures var t := Put(s, id, job); Records(t) && Tokens(t) && Sequences(t)
  {
    PutKeepsTokens(s, id, job);
    PutKeepsSequences(s, id, job);
  }

  lemma PutKeepsCore(s: QueueState, id: JobId, job: Job)
    requires Core(s) && WellFormedJob(id, job) && ListsAtLeast(s, id, job)
    requires job.lockToken.None? || job.lockToken == TokenOf(s, id)
             || forall a | a in s.jobs :: s.jobs[a].lockToken != job.lockToken
    requires job.enqueuedSeq == 0 || (id in s.jobs && job.enqueuedSeq == s.jobs[id].enqueuedSeq)
    ensures Core(Put(s, id, job))
  {
    PutKeepsRecords(s, id, job);
  }

  lemma PutQueuedKeepsSequences(s: QueueState, id: JobId, job: Job)
    requires Sequences(s) && job.state == Waiting
    ensures Sequences(PutInOrder(s, id, job))
  {
  }

  /** A listing parent may be stored anew without harm to the indexes. */
  lemma PutKeepsIndexes(s: QueueState, id: JobId, job: Job)
    requires Indexes(s) && ListsAtLeast(s, id, job)
    ensures Indexes(Put(s, id, job))
  {
    if id in s.flowDependencies { assert WellFormedIndex(s.flowDependencies[id], s.jobs[id].childIds); }
  }

  lemma PutQueuedKeepsCore(s: QueueState, id: JobId, job: Job)
    requires Core(s) && WellFormedJob(id, job) && ListsAtLeast(s, id, job) && job.state == Waiting
    ensures Core(PutInOrder(s, id, job))
  {
    PutQueuedKeepsSequences(s, id, job);
    PutKeepsTokens(s, id, job);
    PutKeepsIndexes(s, id, job);
  }

  lemma PutInOrderKeepsCore(s: QueueState, id: JobId, job: Job)
    requires Core(s) && WellFormedJob(id, job) && ListsAtLeast(s, id, job)
    requires job.state != Active
    requires job.state == Waiting || job.enqueuedSeq == 0 || (id in s.jobs && job.enqueuedSeq == s.jobs[id].enqueuedSeq)
    ensures Core(PutInOrder(s, id, job))
  {
    assert job.lockToken.None?;
    if job.state == Waiting { PutQueuedKeepsCore(s, id, job); } else { PutKeepsCore(s, id, job); }
  }

  lemma InsertKeepsCore(s: QueueState, job: Job)
    requires Core(s) && job.id !in s.jobs && WellFormedJob(job.id, job)
    requires job.state != Active && job.enqueuedSeq == 0
    ensures Core(Insert(s, job))
  {
    PutInOrderKeepsCore(ForgetReleasedOwner(s, job.id, job), job.id, job);
  }

  lemma PutInOrderStores(s: QueueState, id: JobId, job: Job)
    ensures var t := PutInOrder(s, id, job);
            id in t.jobs && t.jobs[id] == job.(enqueuedSeq := t.jobs[id].enqueuedSeq)
            && t.jobs == s.jobs[id := t.jobs[id]] && t.flowDependencies == s.flowDependencies
  {
  }

  lemma InsertStores(s: QueueState, job: Job)
    ensures var t := Insert(s, job);
            job.id in t.jobs && t.jobs[job.id] == job.(enqueuedSeq := t.jobs[job.id].enqueuedSeq)
            && t.jobs == s.jobs[job.id := t.jobs[job.id]] && t.flowDependencies == s.flowDependencies && t.queue == s.queue
  {
  }

  lemma PutCalm(s: QueueState, id: JobId, job: Job)
    requires id in s.jobs && CalmJob(s.jobs[id], job)
    requires job.enqueuedSeq == s.jobs[id].enqueuedSeq
    ensures Calm(s, Put(s, id, job)) && SameIndexes(s, Put(s, id, job))
  {
    var t := Put(s, id, job);
    assert t.jobs.Keys == s.jobs.Keys;
    forall x | x in t.jobs ensures CalmJob(s.jobs[x], t.jobs[x]) {}
  }

  lemma PutInOrderCalm(s: QueueState, id: JobId, job: Job)
    requires id in s.jobs && CalmJob(s.jobs[id], job)
    requires job.enqueuedSeq == s.jobs[id].enqueuedSeq && job.state != Active
    ensures Calm(s, PutInOrder(s, id, job)) && SameIndexes(s, PutInOrder(s, id, job))
  {
    var t := PutInOrder(s, id, job);
    assert t.jobs.Keys == s.jobs.Keys;
    assert CalmJob(s.jobs[id], t.jobs[id]);
    forall x | x in t.jobs ensures CalmJob(s.jobs[x], t.jobs[x]) {}
  }

  /** Rewriting one bystander record. */
  lemma PutIsCalm(s: QueueState, id: JobId, job: Job)
    requires Core(s) && id in s.jobs && CalmJob(s.jobs[id], job) && WellFormedJob(id, job)
    requires job.enqueuedSeq == s.jobs[id].enqueuedSeq
    ensures var t := Put(s, id, job); Core(t) && Calm(s, t) && SameIndexes(s, t)
  {
    assert job.lockToken.None? || job.lockToken == TokenOf(s, id);
    PutKeepsCore(s, id, job);
    PutCalm(s, id, job);
  }

  lemma PutInOrderIsCalm(s: QueueState, id: JobId, job: Job)
    requires Core(s) && id in s.jobs && CalmJob(s.jobs[id], job) && WellFormedJob(id, job)
    requires job.enqueuedSeq == s.jobs[id].enqueuedSeq && job.state != Active
    ensures var t := PutInOrder(s, id, job); Core(t) && Calm(s, t) && SameIndexes(s, t)
  {
    PutInOrderKeepsCore(s, id, job);
    PutInOrderCalm(s, id, job);
  }

  // -- Removing ---------------------------------------------------------------

  lemma RemoveAllKeepsCore(s: QueueState, ids: set<JobId>)
    requires Core(s)
    ensures Core(RemoveAll(s, ids))
  {
  }

  lemma RemoveAllCalm(s: QueueState, ids: set<JobId>)
    ensures Calm(s, RemoveAll(s, ids)) && SameIndexes(s, RemoveAll(s, ids))
  {
  }

  lemma RemoveAllIsCalm(s: QueueState, ids: set<JobId>)
    requires Core(s)
    ensures var t := RemoveAll(s, ids); Core(t) && Calm(s, t) && SameIndexes(s, t)
  {
    RemoveAllKeepsCore(s, ids);
    RemoveAllCalm(s, ids);
  }

  lemma RemoveIsRemoveAll(s: QueueState, id: JobId)
    ensures Remove(s, id) == RemoveAll(s, {id})
  {
    var t, u := Remove(s, id), RemoveAll(s, {id});
    if id in s.jobs {
      assert {id} * s.jobs.Keys == {id};
      forall o ensures o in t.releasedOwners <==> o in u.releasedOwners {}
      assert t.releasedOwners == u.releasedOwners;
    } else {
      assert {id} * s.jobs.Keys == {};
      assert s.jobs - {id} == s.jobs;
      assert s.flowDependencies - {} == s.flowDependencies;
      assert t.releasedOwners == u.releasedOwners;
    }
  }

  lemma RemoveIsCalm(s: QueueState, id: JobId)
    requires Core(s)
    ensures var t := Remove(s, id); Core(t) && Calm(s, t) && SameIndexes(s, t)
  {
    RemoveIsRemoveAll(s, id);
    RemoveAllIsCalm(s, {id});
  }

  ghost function AgePassEvicts(s: QueueState, state: JobState, retention: JobRetention, now: Time): set<JobId>
  {
    if retention.age.None? then {} else
      var limit := if retention.limit.Some? then retention.limit.value else 1000;
      Elements(Take(NewestFirst(s, Expired(s, state, Earlier(now, retention.age.value)), state), limit))
  }

  ghost function CountPassEvicts(s: QueueState, state: JobState, retention: JobRetention): set<JobId>
  {
    if retention.count.None? then {}
    else Elements(Drop(NewestFirst(s, FinishedRanks(s, state).Keys, state), retention.count.value))
  }

  lemma RemoveNone(s: QueueState)
    ensures RemoveAll(s, {}) == s
  {
    assert s.jobs - {} == s.jobs && {} * s.jobs.Keys == {} && s.flowDependencies - {} == s.flowDependencies;
    assert RemoveAll(s, {}).releasedOwners == s.releasedOwners;
  }

  lemma RetentionOnlyRemoves(s: QueueState, state: JobState, retention: JobRetention, now: Time)
    ensures AgePass(s, state, retention, now) == RemoveAll(s, AgePassEvicts(s, state, retention, now))
    ensures CountPass(s, state, retention) == RemoveAll(s, CountPassEvicts(s, state, retention))
  {
    RemoveNone(s);
  }

  lemma ApplyRetentionIsCalm(s: QueueState, state: JobState, retention: JobRetention, now: Time)
    requires Core(s)
    ensures var t := ApplyRetention(s, state, retention, now); Core(t) && Calm(s, t) && SameIndexes(s, t)
  {
    var aged := AgePass(s, state, retention, now);
    RetentionOnlyRemoves(s, state, retention, now);
    RemoveAllIsCalm(s, AgePassEvicts(s, state, retention, now));
    RetentionOnlyRemoves(aged, state, retention, now);
    RemoveAllIsCalm(aged, CountPassEvicts(aged, state, retention));
    CalmTransitive(s, aged, CountPass(aged, state, retention));
  }

  /** Retention of one finished job: nothing, its own removal, or a retention pass. */
  lemma RetainFinishedCases(s: QueueState, id: JobId, job: Job, now: Time)
    ensures var t := RetainFinished(s, id, job, now);
            || t == s || t == Remove(s, id)
            || exists state: JobState, retention :: state.IsTerminal() && t == ApplyRetention(s, state, retention, now)
  {
  }

  lemma RetainFinishedIsCalm(s: QueueState, id: JobId, job: Job, now: Time)
    requires Core(s)
    ensures var t := RetainFinished(s, id, job, now); Core(t) && Calm(s, t) && SameIndexes(s, t)
  {
    RetainFinishedCases(s, id, job, now);
    var t := RetainFinished(s, id, job, now);
    if t == s {
      CalmReflexive(s);
    } else if t == Remove(s, id) {
      RemoveIsCalm(s, id);
    } else {
      var state: JobState, retention :| state.IsTerminal() && t == ApplyRetention(s, state, retention, now);
      ApplyRetentionIsCalm(s, state, retention, now);
    }
  }

  // -- Parents ----------------------------------------------------------------

  lemma FailParentIsCalm(s: QueueState, parentId: JobId, reason: string, now: Time)
    requires Core(s)
    ensures var t := FailParent(s, parentId, reason, now); Core(t) && Calm(s, t) && SameIndexes(s, t)
  {
    if parentId in s.jobs && !s.jobs[parentId].state.IsTerminal() {
      var failed := FailedParent(s.jobs[parentId], reason, now);
      PutIsCalm(s, parentId, failed);
      RetainFinishedIsCalm(Put(s, parentId, failed), parentId, failed, now);
      CalmTransitive(s, Put(s, parentId, failed), FailParent(s, parentId, reason, now));
    }
  }

  lemma ContinueParentIsCalm(s: QueueState, parentId: JobId, now: Time)
    requires Core(s)
    ensures var t := ContinueParent(s, parentId, now); Core(t) && Calm(s, t) && SameIndexes(s, t)
  {
    if parentId in s.jobs && s.jobs[parentId].state == WaitingChildren {
      PutInOrderIsCalm(s, parentId, Resumed(s.jobs[parentId], None, now));
    }
  }

  lemma DeferParentFailureIsCalm(s: QueueState, parentId: JobId, childId: JobId, now: Time)
    requires Core(s)
    ensures var t := DeferParentFailure(s, parentId, childId, now); Core(t) && Calm(s, t) && SameIndexes(s, t)
  {
    if parentId in s.jobs && !s.jobs[parentId].state.IsTerminal() {
      PutInOrderIsCalm(s, parentId, Resumed(s.jobs[parentId], Some(childId), now));
    }
  }

  lemma ReleaseParentIsCalm(s: QueueState, parentId: JobId, now: Time)
    requires Core(s)
    ensures var t := ReleaseParent(s, parentId, now); Core(t) && Calm(s, t) && SameIndexes(s, t)
  {
    if parentId in s.jobs && s.jobs[parentId].state == WaitingChildren {
      match ScanChildren(s, s.jobs[parentId].childIds)
      case Blocked =>
      case Ready(Some(child), _) => DeferParentFailureIsCalm(s, parentId, child, now);
      case Ready(None, Some(child)) =>
        FailParentIsCalm(s, parentId,
          ChildFailureReason(child, if child in s.jobs then s.jobs[child].failedReason else None), now);
      case Ready(None, None) => ContinueParentIsCalm(s, parentId, now);
    }
  }

  lemma {:induction false} ReleaseParentsIsCalm(s: QueueState, parentIds: seq<JobId>, now: Time)
    requires Core(s)
    ensures var t := ReleaseParents(s, parentIds, now); Core(t) && Calm(s, t) && SameIndexes(s, t)
    decreases |parentIds|
  {
    if parentIds != [] {
      var n := |parentIds| - 1;
      var before := ReleaseParents(s, parentIds[..n], now);
      ReleaseParentsIsCalm(s, parentIds[..n], now);
      ReleaseParentIsCalm(before, parentIds[n], now);
      CalmTransitive(s, before, ReleaseParent(before, parentIds[n], now));
    }
  }

  // -- Index edits --------------------------------------------------------------

  /** Only the side index changed, and only what it says about `childId` under `parentId`. */
  ghost predicate OnlyIndexes(s: QueueState, t: QueueState, parentId: JobId, childId: JobId)
  {
    && t == s.(flowDependencies := t.flowDependencies)
    && (forall p | p != parentId :: IndexOf(t, p) == IndexOf(s, p))
    && IndexOf(t, parentId).Erase(childId) == IndexOf(s, parentId).Erase(childId)
  }

  lemma EraseAbsent(index: DependencyIndex, childId: JobId)
    requires !index.Contains(childId)
    ensures index.Erase(childId) == index
  {
    assert index.processed - {childId} == index.processed && index.ignored - {childId} == index.ignored;
  }

  /** On disjoint buckets, erasing from the first bucket that holds the child erases it everywhere. */
  lemma ShortCircuitSuffices(index: DependencyIndex, childIds: seq<JobId>, childId: JobId)
    requires WellFormedIndex(index, childIds)
    ensures ShortCircuitErase(index, childId) == index.Erase(childId)
  {
    assert childId !in index.processed ==> index.processed - {childId} == index.processed;
    assert childId !in index.ignored ==> index.ignored - {childId} == index.ignored;
    assert childId !in index.failed ==> index.failed - {childId} == index.failed;
  }

  lemma EraseTwice(index: DependencyIndex, childId: JobId)
    ensures index.Erase(childId).Erase(childId) == index.Erase(childId)
  {
    EraseAbsent(index.Erase(childId), childId);
  }

  /** The code's short-circuit clear removes every trace of the child. */
  lemma ClearRemovesEveryTrace(s: QueueState, parentId: JobId, childId: JobId)
    requires Indexes(s)
    ensures var t := ClearChildDependency(s, parentId, childId);
            && t == s.(flowDependencies := t.flowDependencies)
            && IndexOf(t, parentId) == IndexOf(s, parentId).Erase(childId)
            && (forall p | p != parentId :: IndexOf(t, p) == IndexOf(s, p))
  {
    EraseAbsent(EMPTY_INDEX, childId);
    if parentId in s.flowDependencies {
      ShortCircuitSuffices(s.flowDependencies[parentId], s.jobs[parentId].childIds, childId);
    }
  }

  lemma SetIndexKeepsIndexes(s: QueueState, parentId: JobId, index: DependencyIndex)
    requires Indexes(s) && parentId in s.jobs && WellFormedIndex(index, s.jobs[parentId].childIds)
    ensures Indexes(SetIndex(s, parentId, index))
  {
  }

  lemma ClearKeepsIndexes(s: QueueState, parentId: JobId, childId: JobId)
    requires Indexes(s)
    ensures var t := ClearChildDependency(s, parentId, childId); Indexes(t) && OnlyIndexes(s, t, parentId, childId)
  {
    ClearRemovesEveryTrace(s, parentId, childId);
    EraseTwice(IndexOf(s, parentId), childId);
    if parentId in s.flowDependencies {
      var index := ShortCircuitErase(s.flowDependencies[parentId], childId);
      if !index.IsEmpty() { SetIndexKeepsIndexes(s, parentId, index); }
    }
  }

  lemma EraseAfterSet(index: DependencyIndex, childId: JobId, value: Value, reason: string)
    ensures DependencyIndex(index.processed[childId := value], index.ignored - {childId}, index.failed - {childId}).Erase(childId) == index.Erase(childId)
    ensures DependencyIndex(index.processed - {childId}, index.ignored[childId := reason], index.failed - {childId}).Erase(childId) == index.Erase(childId)
    ensures DependencyIndex(index.processed - {childId}, index.ignored - {childId}, index.failed + {childId}).Erase(childId) == index.Erase(childId)
  {
    assert index.processed[childId := value] - {childId} == index.processed - {childId};
    assert index.ignored[childId := reason] - {childId} == index.ignored - {childId};
    EraseTwice(index, childId);
    assert index.failed + {childId} - {childId} == index.failed - {childId};
  }

  /** The buckets agree on every child but one. */
  ghost predicate AgreeBut(a: DependencyIndex, b: DependencyIndex, childId: JobId)
  {
    forall c | c != childId :: (c in a.processed <==> c in b.processed)
      && (c in a.ignored <==> c in b.ignored) && (c in a.failed <==> c in b.failed)
  }

  lemma SameErasedAgree(a: DependencyIndex, b: DependencyIndex, childId: JobId)
    requires a.Erase(childId) == b.Erase(childId)
    ensures AgreeBut(a, b, childId)
  {
    forall c | c != childId ensures (c in a.processed <==> c in b.processed)
      && (c in a.ignored <==> c in b.ignored) && (c in a.failed <==> c in b.failed) {
      assert c in a.processed <==> c in a.Erase(childId).processed;
      assert c in a.ignored <==> c in a.Erase(childId).ignored;
      assert c in a.failed <==> c in a.Erase(childId).failed;
    }
  }

  lemma MovedIsWellFormed(was: DependencyIndex, index: DependencyIndex, childIds: seq<JobId>, childId: JobId)
    requires was == EMPTY_INDEX || WellFormedIndex(was, childIds)
    requires childId in childIds && AgreeBut(index, was, childId) && index.Contains(childId)
    requires !(childId in index.processed && childId in index.ignored)
    requires !(childId in index.failed && (childId in index.processed || childId in index.ignored))
    ensures WellFormedIndex(index, childIds)
  {
  }

  /** Moving a listed child between the buckets of its parent. */
  lemma MoveKeepsIndexes(s: QueueState, parentId: JobId, childId: JobId, index: DependencyIndex)
    requires Indexes(s) && parentId in s.jobs && childId in s.jobs[parentId].childIds
    requires index.Erase(childId) == IndexOf(s, parentId).Erase(childId)
    requires index.Contains(childId)
    requires !(childId in index.processed && childId in index.ignored)
    requires !(childId in index.failed && (childId in index.processed || childId in index.ignored))
    ensures var t := SetIndex(s, parentId, index); Indexes(t) && OnlyIndexes(s, t, parentId, childId)
  {
    SameErasedAgree(index, IndexOf(s, parentId), childId);
    MovedIsWellFormed(IndexOf(s, parentId), index, s.jobs[parentId].childIds, childId);
    SetIndexKeepsIndexes(s, parentId, index);
  }

  lemma CompletedRecordKeepsIndexes(s: QueueState, parentId: JobId, childId: JobId, value: Value)
    requires Indexes(s) && parentId in s.jobs && childId in s.jobs[parentId].childIds
    ensures var t := RecordCompletedChild(s, parentId, childId, value); Indexes(t) && OnlyIndexes(s, t, parentId, childId)
  {
    var i := IndexOf(s, parentId);
    EraseAfterSet(i, childId, value, "");
    MoveKeepsIndexes(s, parentId, childId, DependencyIndex(i.processed[childId := value], i.ignored - {childId}, i.failed - {childId}));
  }

  lemma IgnoredRecordKeepsIndexes(s: QueueState, parentId: JobId, childId: JobId, reason: string)
    requires Indexes(s) && parentId in s.jobs && childId in s.jobs[parentId].childIds
    ensures var t := RecordIgnoredChild(s, parentId, childId, reason); Indexes(t) && OnlyIndexes(s, t, parentId, childId)
  {
    var i := IndexOf(s, parentId);
    EraseAfterSet(i, childId, Null, reason);
    MoveKeepsIndexes(s, parentId, childId, DependencyIndex(i.processed - {childId}, i.ignored[childId := reason], i.failed - {childId}));
  }

  lemma FailedRecordKeepsIndexes(s: QueueState, parentId: JobId, childId: JobId)
    requires Indexes(s) && parentId in s.jobs && childId in s.jobs[parentId].childIds
    ensures var t := RecordFailedChild(s, parentId, childId); Indexes(t) && OnlyIndexes(s, t, parentId, childId)
  {
    var i := IndexOf(s, parentId);
    EraseAfterSet(i, childId, Null, "");
    MoveKeepsIndexes(s, parentId, childId, DependencyIndex(i.processed - {childId}, i.ignored - {childId}, i.failed + {childId}));
  }

  /** `record_terminal_child_dependency_locked` by cases. */
  lemma RecordCases(s: QueueState, parentId: JobId, child: Job)
    ensures var t := RecordTerminalChild(s, parentId, child);
            || t == s
            || (parentId in s.jobs && child.id in s.jobs[parentId].childIds
                && (|| t == ClearChildDependency(s, parentId, child.id)
                    || t == RecordFailedChild(s, parentId, child.id)
                    || (exists value :: t == RecordCompletedChild(s, parentId, child.id, value))
                    || (exists reason :: t == RecordIgnoredChild(s, parentId, child.id, reason))))
  {
  }

  lemma RecordKeepsIndexes(s: QueueState, parentId: JobId, child: Job)
    requires Indexes(s)
    ensures var t := RecordTerminalChild(s, parentId, child); Indexes(t) && OnlyIndexes(s, t, parentId, child.id)
  {
    RecordCases(s, parentId, child);
    var t := RecordTerminalChild(s, parentId, child);
    if t == s {
    } else if t == ClearChildDependency(s, parentId, child.id) {
      ClearKeepsIndexes(s, parentId, child.id);
    } else if t == RecordFailedChild(s, parentId, child.id) {
      FailedRecordKeepsIndexes(s, parentId, child.id);
    } else if value :| t == RecordCompletedChild(s, parentId, child.id, value) {
      CompletedRecordKeepsIndexes(s, parentId, child.id, value);
    } else {
      var reason :| t == RecordIgnoredChild(s, parentId, child.id, reason);
      IgnoredRecordKeepsIndexes(s, parentId, child.id, reason);
    }
  }

  lemma RecordIsCalm(s: QueueState, parentId: JobId, child: Job)
    requires Core(s)
    ensures var t := RecordTerminalChild(s, parentId, child); Core(t) && Calm(s, t)
  {
    RecordKeepsIndexes(s, parentId, child);
  }
}
