/**
  The queue record guarded by the in-memory queue's mutex, and what each of its
  `*_locked` helpers does to it (src/job/memory.rs). Operations built from these
  helpers are in module Operations.
 */
module QueueModel {
  import opened Ordering
  import opened JobTypes

  // -- State -----------------------------------------------------------------

  /** Per-parent side index of finished children. */
  datatype DependencyIndex = DependencyIndex(
    processed: map<JobId, Value>,
    ignored: map<JobId, string>,
    failed: set<JobId>)
  {
    predicate IsEmpty() { processed == map[] && ignored == map[] && failed == {} }

    predicate Contains(childId: JobId)
    {
      childId in processed || childId in ignored || childId in failed
    }

    function Erase(childId: JobId): DependencyIndex
    {
      DependencyIndex(processed - {childId}, ignored - {childId}, failed - {childId})
    }
  }

  const EMPTY_INDEX := DependencyIndex(map[], map[], {})

  /**
    The iteration order of the hash map: entries are met by ascending position.
    The queue does not control it; a rehash or a restart may change it.
   */
  type Layout = map<JobId, int>

  datatype QueueState = QueueState(
    queue: string,
    paused: bool,
    sequence: nat,
    jobs: map<JobId, Job>,
    flowDependencies: map<JobId, DependencyIndex>,
    releasedOwners: set<(string, JobId)>,
    layout: Layout)

  function EmptyQueue(queue: string, layout: Layout): QueueState
  {
    QueueState(queue, false, 0, map[], map[], {}, layout)
  }

  /** A state together with the reply an operation gives. */
  datatype Out<+T> = Out(state: QueueState, reply: T)

  function IndexOf(s: QueueState, parentId: JobId): DependencyIndex
  {
    if parentId in s.flowDependencies then s.flowDependencies[parentId] else EMPTY_INDEX
  }

  // -- Records ---------------------------------------------------------------

  function Put(s: QueueState, id: JobId, job: Job): QueueState
  {
    s.(jobs := s.jobs[id := job])
  }

  /** `assign_waiting_order` followed by storing the record. */
  function PutInOrder(s: QueueState, id: JobId, job: Job): QueueState
  {
    if job.state == Waiting
    then Put(s.(sequence := s.sequence + 1), id, job.(enqueuedSeq := s.sequence + 1))
    else Put(s, id, job)
  }

  function ForgetReleasedOwner(s: QueueState, id: JobId, job: Job): QueueState
  {
    if job.options.deduplication.Some?
    then s.(releasedOwners := s.releasedOwners - {(job.options.deduplication.value.id, id)})
    else s
  }

  /** Storing a brand-new job. */
  function Insert(s: QueueState, job: Job): QueueState
  {
    PutInOrder(ForgetReleasedOwner(s, job.id, job), job.id, job)
  }

  /** `remove_job_record_locked`. */
  function Remove(s: QueueState, id: JobId): QueueState
  {
    if id !in s.jobs then s else
      ForgetReleasedOwner(s.(jobs := s.jobs - {id}, flowDependencies := s.flowDependencies - {id}), id, s.jobs[id])
  }

  /** Removing a set of records, in any order. */
  ghost function RemoveAll(s: QueueState, ids: set<JobId>): QueueState
  {
    s.(jobs := s.jobs - ids,
       flowDependencies := s.flowDependencies - (ids * s.jobs.Keys),
       releasedOwners := set o | o in s.releasedOwners &&
         !(o.1 in ids && o.1 in s.jobs && DeduplicationId(s.jobs[o.1]) == Some(o.0)))
  }

  // -- Dependency side index -------------------------------------------------

  function SetIndex(s: QueueState, parentId: JobId, index: DependencyIndex): QueueState
  {
    s.(flowDependencies := s.flowDependencies[parentId := index])
  }

  function RecordCompletedChild(s: QueueState, parentId: JobId, childId: JobId, value: Value): QueueState
  {
    var index := IndexOf(s, parentId);
    SetIndex(s, parentId, DependencyIndex(index.processed[childId := value], index.ignored - {childId}, index.failed - {childId}))
  }

  function RecordIgnoredChild(s: QueueState, parentId: JobId, childId: JobId, reason: string): QueueState
  {
    var index := IndexOf(s, parentId);
    SetIndex(s, parentId, DependencyIndex(index.processed - {childId}, index.ignored[childId := reason], index.failed - {childId}))
  }

  function RecordFailedChild(s: QueueState, parentId: JobId, childId: JobId): QueueState
  {
    var index := IndexOf(s, parentId);
    SetIndex(s, parentId, DependencyIndex(index.processed - {childId}, index.ignored - {childId}, index.failed + {childId}))
  }

  /** The code erases the child from the first bucket that holds it and stops. */
  function ShortCircuitErase(index: DependencyIndex, childId: JobId): DependencyIndex
  {
    if childId in index.processed then index.(processed := index.processed - {childId})
    else if childId in index.ignored then index.(ignored := index.ignored - {childId})
    else index.(failed := index.failed - {childId})
  }

  /** `clear_child_dependency_side_index_locked`. */
  function ClearChildDependency(s: QueueState, parentId: JobId, childId: JobId): QueueState
  {
    if parentId !in s.flowDependencies then s else
      var index := ShortCircuitErase(s.flowDependencies[parentId], childId);
      if index.IsEmpty() then s.(flowDependencies := s.flowDependencies - {parentId})
      else SetIndex(s, parentId, index)
  }

  /** `record_terminal_child_dependency_locked`. */
  function RecordTerminalChild(s: QueueState, parentId: JobId, child: Job): QueueState
  {
    if parentId !in s.jobs || child.id !in s.jobs[parentId].childIds then s
    else if child.state == Completed then
      RecordCompletedChild(s, parentId, child.id, if child.returnValue.Some? then child.returnValue.value else Null)
    else if child.state != Failed then s
    else if child.options.ignoreDependencyOnFailure || child.options.continueParentOnFailure then
      RecordIgnoredChild(s, parentId, child.id, if child.failedReason.Some? then child.failedReason.value else "")
    else if child.options.failParentOnFailure then RecordFailedChild(s, parentId, child.id)
    else if child.options.removeDependencyOnFailure then ClearChildDependency(s, parentId, child.id)
    else s
  }

  // -- Retention -------------------------------------------------------------

  /** Finished records of one state, keyed for `(finished_at, id)` order. */
  function FinishedRanks(s: QueueState, state: JobState): map<JobId, Rank>
  {
    map id | id in s.jobs && s.jobs[id].state == state && s.jobs[id].finishedAt.Some?
      :: Rank(s.jobs[id].finishedAt.value, 0, 0, 0)
  }

  /** Newest first, ties by descending id. */
  ghost function NewestFirst(s: QueueState, ids: set<JobId>, state: JobState): seq<JobId>
    requires ids <= FinishedRanks(s, state).Keys
  {
    Reverse(Sorted(FinishedRanks(s, state), ids))
  }

  ghost function Elements<T(!new)>(s: seq<T>): set<T> { set x | x in s }

  function Take<T>(s: seq<T>, n: nat): seq<T> { if |s| <= n then s else s[..n] }

  function Drop<T>(s: seq<T>, n: nat): seq<T> { if |s| <= n then [] else s[n..] }

  ghost function Expired(s: QueueState, state: JobState, cutoff: Time): set<JobId>
  {
    set id | id in FinishedRanks(s, state).Keys && s.jobs[id].finishedAt.value <= cutoff
  }

  ghost function AgePass(s: QueueState, state: JobState, retention: JobRetention, now: Time): QueueState
  {
    if retention.age.None? then s else
      var limit := if retention.limit.Some? then retention.limit.value else 1000;
      RemoveAll(s, Elements(Take(NewestFirst(s, Expired(s, state, Earlier(now, retention.age.value)), state), limit)))
  }

  ghost function CountPass(s: QueueState, state: JobState, retention: JobRetention): QueueState
  {
    if retention.count.None? then s else
      RemoveAll(s, Elements(Drop(NewestFirst(s, FinishedRanks(s, state).Keys, state), retention.count.value)))
  }

  /** `apply_finished_retention_locked`. */
  ghost function ApplyRetention(s: QueueState, state: JobState, retention: JobRetention, now: Time): QueueState
  {
    CountPass(AgePass(s, state, retention, now), state, retention)
  }

  /** What happens to the record of a job that just finished. */
  ghost function RetainFinished(s: QueueState, id: JobId, job: Job, now: Time): QueueState
  {
    if job.state == Completed then
      if job.options.RemovesCompletedImmediately() then Remove(s, id)
      else if job.options.CompletedRetention().Some?
      then ApplyRetention(s, Completed, job.options.CompletedRetention().value, now)
      else s
    else
      if job.options.RemovesFailedImmediately() then Remove(s, id)
      else if job.options.FailedRetention().Some?
      then ApplyRetention(s, Failed, job.options.FailedRetention().value, now)
      else s
  }

  // -- Parents ---------------------------------------------------------------

  /** A parent made runnable again, with `deferred` naming the child that failed it. */
  function Resumed(parent: Job, deferred: Option<JobId>, now: Time): Job
  {
    Unleased(parent).(
      state := StateAfterDependencies(parent.scheduledAt, now),
      processedAt := None, finishedAt := None,
      deferredFailure := deferred, failedReason := None)
  }

  function ChildFailureReason(childId: JobId, reason: Option<string>): string
  {
    "child job " + childId + " failed: " + (if reason.Some? then reason.value else "unknown error")
  }

  function FailedParent(parent: Job, reason: string, now: Time): Job
  {
    Unleased(parent).(state := Failed, finishedAt := Some(now), deferredFailure := None, failedReason := Some(reason))
  }

  /** `fail_waiting_parent_locked`: any live parent, waiting for children or not. */
  ghost function FailParent(s: QueueState, parentId: JobId, reason: string, now: Time): QueueState
  {
    if parentId !in s.jobs || s.jobs[parentId].state.IsTerminal() then s else
      var failed := FailedParent(s.jobs[parentId], reason, now);
      RetainFinished(Put(s, parentId, failed), parentId, failed, now)
  }

  /** `continue_parent_after_child_failure_locked`. */
  function ContinueParent(s: QueueState, parentId: JobId, now: Time): QueueState
  {
    if parentId !in s.jobs || s.jobs[parentId].state != WaitingChildren then s
    else PutInOrder(s, parentId, Resumed(s.jobs[parentId], None, now))
  }

  /** `defer_parent_failure_after_child_failure_locked`: also takes an active parent's lease. */
  function DeferParentFailure(s: QueueState, parentId: JobId, childId: JobId, now: Time): QueueState
  {
    if parentId !in s.jobs || s.jobs[parentId].state.IsTerminal() then s
    else PutInOrder(s, parentId, Resumed(s.jobs[parentId], Some(childId), now))
  }

  /** What the child scan of `release_parent_if_ready_locked` finds. */
  datatype Readiness =
    | Blocked
    | Ready(deferred: Option<JobId>, failure: Option<JobId>)

  function ScanNext(s: QueueState, earlier: Readiness, id: JobId): Readiness
  {
    if earlier.Blocked? || id !in s.jobs then earlier else
      var child := s.jobs[id];
      if child.state == Completed then earlier
      else if child.state != Failed then Blocked
      else if child.options.failParentOnFailure then earlier.(deferred := Some(id))
      else if FailureReleasesDependency(child) then earlier
      else earlier.(failure := Some(id))
  }

  function ScanChildren(s: QueueState, childIds: seq<JobId>): Readiness
  {
    if childIds == [] then Ready(None, None)
    else ScanNext(s, ScanChildren(s, childIds[..|childIds| - 1]), childIds[|childIds| - 1])
  }

  /** `release_parent_if_ready_locked`. */
  ghost function ReleaseParent(s: QueueState, parentId: JobId, now: Time): QueueState
  {
    if parentId !in s.jobs || s.jobs[parentId].state != WaitingChildren then s else
      match ScanChildren(s, s.jobs[parentId].childIds)
      case Blocked => s
      case Ready(Some(child), _) => DeferParentFailure(s, parentId, child, now)
      case Ready(None, Some(child)) =>
        FailParent(s, parentId,
          ChildFailureReason(child, if child in s.jobs then s.jobs[child].failedReason else None), now)
      case Ready(None, None) => ContinueParent(s, parentId, now)
  }

  /** `release_parent_if_ready_locked` for a vector of parents, in order. */
  ghost function ReleaseParents(s: QueueState, parentIds: seq<JobId>, now: Time): QueueState
  {
    if parentIds == [] then s
    else ReleaseParent(ReleaseParents(s, parentIds[..|parentIds| - 1], now), parentIds[|parentIds| - 1], now)
  }

  /** `restore_parent_dependency_after_child_retry_locked`. */
  function RestoreParent(s: QueueState, parentId: JobId, childId: JobId): QueueState
  {
    if parentId !in s.jobs then s else
      var parent := s.jobs[parentId];
      if parent.state.IsTerminal() || parent.state == Active || childId !in parent.childIds then s
      else Put(ClearChildDependency(s, parentId, childId), parentId, Parked(parent))
  }

  function Parked(parent: Job): Job
  {
    Unleased(parent).(state := WaitingChildren, processedAt := None, finishedAt := None,
                      deferredFailure := None, failedReason := None)
  }

  // -- Owners of deduplication ids and repeat keys ----------------------------

  function Positions(layout: Layout, ids: set<JobId>): (ranks: map<JobId, Rank>)
    ensures ranks.Keys == ids
  {
    map id | id in ids :: Rank(if id in layout then layout[id] else 0, 0, 0, 0)
  }

  /** `find` over the hash map of jobs: with several matches, the iteration order decides. */
  ghost function Find(s: QueueState, matches: set<JobId>): (r: Option<JobId>)
    ensures r.None? <==> matches == {}
    ensures r.Some? ==> r.value in matches
  {
    if matches == {} then None else Some(Least(Positions(s.layout, matches), matches))
  }

  predicate IsDeduplicationOwner(s: QueueState, id: JobId, dedupId: string, now: Time)
  {
    && id in s.jobs
    && ActiveDeduplicationId(s.jobs[id], now) == Some(dedupId)
    && (dedupId, id) !in s.releasedOwners
  }

  function DeduplicationOwners(s: QueueState, dedupId: string, now: Time): (owners: set<JobId>)
    ensures owners <= s.jobs.Keys
  {
    set id | id in s.jobs && IsDeduplicationOwner(s, id, dedupId, now)
  }

  /** `find_active_deduplicated_job`. */
  ghost function FindDeduplicationOwner(s: QueueState, candidate: Job, now: Time): (r: Option<JobId>)
    ensures r.Some? ==> r.value in s.jobs
  {
    var dedupId := ActiveDeduplicationId(candidate, now);
    if dedupId.None? then None else Find(s, DeduplicationOwners(s, dedupId.value, now))
  }

  predicate IsRepeatOwner(s: QueueState, id: JobId, key: string)
  {
    id in s.jobs && ActiveRepeatKey(s.jobs[id]) == Some(key)
  }

  function RepeatOwners(s: QueueState, key: string): (owners: set<JobId>)
    ensures owners <= s.jobs.Keys
  {
    set id | id in s.jobs && IsRepeatOwner(s, id, key)
  }

  ghost function FindRepeatOwner(s: QueueState, candidate: Job): (r: Option<JobId>)
    ensures r.Some? ==> r.value in s.jobs
  {
    var key := ActiveRepeatKey(candidate);
    if key.None? then None else Find(s, RepeatOwners(s, key.value))
  }

  predicate ReplacesDelayedOwner(candidate: Job, existing: Job)
  {
    && candidate.options.deduplication.Some?
    && candidate.options.deduplication.value.replace
    && existing.state == Delayed
    && candidate.repeatKey.None?
    && existing.parentId.None?
    && existing.childIds == []
    && existing.repeatKey.None?
  }

  function PreserveExpiration(candidate: Job, existing: Job): Job
  {
    if candidate.options.deduplication.Some? && candidate.options.deduplication.value.ttl.Some?
    then candidate.(deduplicationExpiresAt := existing.deduplicationExpiresAt)
    else candidate
  }

  /** `extend_deduplication_expiration_locked`. */
  function ExtendExpiration(s: QueueState, candidate: Job, existingId: JobId, now: Time): QueueState
  {
    if candidate.options.deduplication.Some? && candidate.options.deduplication.value.extend
       && candidate.options.deduplication.value.ttl.Some? && existingId in s.jobs
    then Put(s, existingId,
             s.jobs[existingId].(deduplicationExpiresAt := DeduplicationExpiration(candidate.options, now)))
    else s
  }
}
