/**
  Every operation of the in-memory queue as one atomic step: from the state
  under the mutex to the next state and the reply (src/job/memory.rs).

  Values the code draws from its environment are parameters: `now`, generated
  ids (`uuid`), lock tokens, the retry policy's backoff and the next occurrence
  of a cron schedule.
 */
module Operations {
  import opened Ordering
  import opened JobTypes
  import opened QueueModel
  import opened FlowReaders
  import Descendants

  // -- Adding jobs -----------------------------------------------------------

  /** The job is stored unless its repeat series already has a live occurrence. */
  ghost function AddUnlessRepeating(s: QueueState, job: Job): Out<Result<Job>>
  {
    var owner := FindRepeatOwner(s, job);
    if owner.Some? then Out(s, Ok(s.jobs[owner.value]))
    else Out(Insert(s, job), Ok(Insert(s, job).jobs[job.id]))
  }

  ghost function AddJob(s: QueueState, job: Job, now: Time): Out<Result<Job>>
  {
    if job.id in s.jobs then Out(s, Ok(s.jobs[job.id])) else
      var owner := FindDeduplicationOwner(s, job, now);
      if owner.None? then AddUnlessRepeating(s, job)
      else if ReplacesDelayedOwner(job, s.jobs[owner.value]) then
        AddUnlessRepeating(Remove(s, owner.value), PreserveExpiration(job, s.jobs[owner.value]))
      else
        var extended := ExtendExpiration(s, job, owner.value, now);
        Out(extended, Ok(extended.jobs[owner.value]))
  }

  /** `add_at`. */
  ghost function Add(s: QueueState, spec: JobSpec, uuid: JobId, now: Time): Out<Result<Job>>
  {
    if !spec.options.ValidAt(now) then Out(s, Err(ConfigError))
    else AddJob(s, NewJob(s.queue, spec, uuid, now), now)
  }

  function NewJobs(queue: string, specs: seq<JobSpec>, uuids: seq<JobId>, now: Time): (jobs: seq<Job>)
    requires |specs| == |uuids|
    ensures |jobs| == |specs|
    ensures forall k | 0 <= k < |specs| :: jobs[k] == NewJob(queue, specs[k], uuids[k], now)
  {
    seq(|specs|, k requires 0 <= k < |specs| => NewJob(queue, specs[k], uuids[k], now))
  }

  ghost function AddJobs(s: QueueState, jobs: seq<Job>, now: Time): Out<seq<Job>>
  {
    if jobs == [] then Out(s, []) else
      var n := |jobs| - 1;
      var before := AddJobs(s, jobs[..n], now);
      var last := AddJob(before.state, jobs[n], now);
      Out(last.state, before.reply + (if last.reply.Ok? then [last.reply.value] else []))
  }

  /** `add_many_at`: nothing is stored when any options are invalid. */
  ghost function AddMany(s: QueueState, specs: seq<JobSpec>, uuids: seq<JobId>, now: Time): Out<Result<seq<Job>>>
    requires |specs| == |uuids|
  {
    if exists k | 0 <= k < |specs| :: !specs[k].options.ValidAt(now) then Out(s, Err(ConfigError)) else
      var added := AddJobs(s, NewJobs(s.queue, specs, uuids, now), now);
      Out(added.state, Ok(added.reply))
  }

  // -- Flows -----------------------------------------------------------------

  function ChildJobs(queue: string, parentId: JobId, specs: seq<JobSpec>, uuids: seq<JobId>, now: Time): (jobs: seq<Job>)
    requires |specs| == |uuids|
    ensures |jobs| == |specs|
  {
    seq(|specs|, k requires 0 <= k < |specs| => NewJob(queue, specs[k], uuids[k], now).(parentId := Some(parentId)))
  }

  function Ids(jobs: seq<Job>): (ids: seq<JobId>)
    ensures |ids| == |jobs|
    ensures forall k | 0 <= k < |jobs| :: ids[k] == jobs[k].id
  {
    seq(|jobs|, k requires 0 <= k < |jobs| => jobs[k].id)
  }

  /**
    A submitted child may reuse a stored job only when that job is free or
    already this parent's; a listed child that is gone may not come back.
   */
  function AttachConflict(s: QueueState, parentId: JobId, listed: seq<JobId>, childId: JobId): Option<LaneError>
  {
    if childId in s.jobs then
      var owner := s.jobs[childId].parentId;
      if owner.Some? && owner.value != parentId && owner.value in s.jobs then Some(JobStateConflict)
      else if childId in listed && owner != Some(parentId) then Some(ConfigError)
      else None
    else if childId in listed then Some(ConfigError)
    else None
  }

  function FirstConflict(s: QueueState, parentId: JobId, listed: seq<JobId>, children: seq<Job>): Option<LaneError>
  {
    if children == [] then None else
      var n := |children| - 1;
      var earlier := FirstConflict(s, parentId, listed, children[..n]);
      if earlier.Some? then earlier else AttachConflict(s, parentId, listed, children[n].id)
  }

  /** Result of resolving the deduplication ids of a flow's children. */
  datatype Scan = Scan(state: QueueState, skipped: set<JobId>, taken: set<string>, conflict: bool)

  /** A new child whose deduplication id is owned elsewhere is skipped; one whose id was just taken conflicts. */
  ghost function ScanChild(before: Scan, child: Job, now: Time): (scan: Scan)
    ensures scan.state.jobs.Keys == before.state.jobs.Keys && scan.state.flowDependencies == before.state.flowDependencies
  {
    var dedupId := ActiveDeduplicationId(child, now);
    if before.conflict || child.id in before.state.jobs || dedupId.None? then before else
      var owner := Find(before.state, DeduplicationOwners(before.state, dedupId.value, now));
      if owner.Some? then
        before.(state := ExtendExpiration(before.state, child, owner.value, now), skipped := before.skipped + {child.id})
      else if dedupId.value in before.taken then before.(conflict := true)
      else before.(taken := before.taken + {dedupId.value})
  }

  /** All children of a submission, in order. */
  ghost function ScanDeduplication(s: QueueState, children: seq<Job>, taken: set<string>, now: Time): (scan: Scan)
    ensures scan.state.jobs.Keys == s.jobs.Keys && scan.state.flowDependencies == s.flowDependencies
  {
    if children == [] then Scan(s, {}, taken, false)
    else ScanChild(ScanDeduplication(s, children[..|children| - 1], taken, now), children[|children| - 1], now)
  }

  /** Repeat keys of the jobs about to be stored must be free and distinct. */
  ghost predicate RepeatKeysFree(s: QueueState, jobs: seq<Job>)
  {
    && (forall k | 0 <= k < |jobs| && ActiveRepeatKey(jobs[k]).Some? :: RepeatOwners(s, ActiveRepeatKey(jobs[k]).value) == {})
    && (forall i, j | 0 <= i < j < |jobs| && ActiveRepeatKey(jobs[i]).Some? :: ActiveRepeatKey(jobs[i]) != ActiveRepeatKey(jobs[j]))
  }

  function Unskipped(children: seq<Job>, skipped: set<JobId>): seq<Job>
  {
    if children == [] then [] else
      var n := |children| - 1;
      Unskipped(children[..n], skipped) + (if children[n].id in skipped then [] else [children[n]])
  }

  function Unstored(s: QueueState, children: seq<Job>): seq<Job>
  {
    if children == [] then [] else
      var n := |children| - 1;
      Unstored(s, children[..n]) + (if children[n].id in s.jobs then [] else [children[n]])
  }

  function AppendNew(ids: seq<JobId>, more: seq<JobId>): seq<JobId>
  {
    if more == [] then ids else
      var n := |more| - 1;
      var sofar := AppendNew(ids, more[..n]);
      if more[n] in sofar then sofar else sofar + [more[n]]
  }

  /** One child joins its parent: a stored job is re-parented, a new one stored. */
  function AttachChild(s: QueueState, parentId: JobId, child: Job): QueueState
  {
    if child.id in s.jobs then
      var existing := s.jobs[child.id].(parentId := Some(parentId));
      RecordTerminalChild(Put(s, child.id, existing), parentId, existing)
    else Insert(s, child)
  }

  function AttachChildren(s: QueueState, parentId: JobId, children: seq<Job>): QueueState
  {
    if children == [] then s
    else AttachChild(AttachChildren(s, parentId, children[..|children| - 1]), parentId, children[|children| - 1])
  }

  function StoredJobs(s: QueueState, ids: seq<JobId>): seq<Job>
  {
    if ids == [] then [] else
      StoredJobs(s, ids[..|ids| - 1]) + (if ids[|ids| - 1] in s.jobs then [s.jobs[ids[|ids| - 1]]] else [])
  }

  /** A parent record stored as `parent`, its children attached, and released if nothing blocks it. */
  ghost function JoinFlow(s: QueueState, parentId: JobId, parent: Job, joining: seq<Job>, now: Time): QueueState
  {
    ReleaseParent(AttachChildren(Put(s, parentId, parent), parentId, joining), parentId, now)
  }

  /** A stored parent takes more children (`add_flow_for_existing_parent_locked`). */
  ghost function AddFlowToExisting(s: QueueState, parentId: JobId, children: seq<Job>, now: Time): Out<Result<JobFlow>>
    requires parentId in s.jobs
  {
    var listed := s.jobs[parentId].childIds;
    var conflict := FirstConflict(s, parentId, listed, children);
    if conflict.Some? then Out(s, Err(conflict.value)) else
      var scan := ScanDeduplication(s, children, {}, now);
      var joining := Unskipped(children, scan.skipped);
      if scan.conflict || !RepeatKeysFree(scan.state, Unstored(scan.state, joining)) then Out(scan.state, Err(ConfigError)) else
        var parent := scan.state.jobs[parentId].(childIds := AppendNew(listed, Ids(joining)));
        var joined := JoinFlow(scan.state, parentId, parent, joining, now);
        Out(joined, Ok(JobFlow(if parentId in joined.jobs then joined.jobs[parentId] else s.jobs[parentId],
                               StoredJobs(AttachChildren(Put(scan.state, parentId, parent), parentId, joining), Ids(joining)))))
  }

  /** The parent record a new flow stores. */
  function RootJob(parent: Job, joining: seq<Job>, now: Time): Job
  {
    parent.(childIds := Ids(joining),
            state := if joining == [] then StateAfterDependencies(parent.scheduledAt, now) else WaitingChildren)
  }

  ghost function StartFlow(s: QueueState, root: Job, joining: seq<Job>, now: Time): QueueState
  {
    ReleaseParent(AttachChildren(Insert(s, root), root.id, joining), root.id, now)
  }

  /** The new flow, once its children were scanned. */
  ghost function StartScanned(scan: Scan, parent: Job, children: seq<Job>, now: Time): Out<Result<JobFlow>>
  {
    var joining := Unskipped(children, scan.skipped);
    var root := RootJob(parent, joining, now);
    if scan.conflict || !RepeatKeysFree(scan.state, [root] + Unstored(scan.state, joining)) then Out(scan.state, Err(ConfigError)) else
      var started := StartFlow(scan.state, root, joining, now);
      Out(started, Ok(JobFlow(if root.id in started.jobs then started.jobs[root.id] else root,
                              StoredJobs(AttachChildren(Insert(scan.state, root), root.id, joining), Ids(joining)))))
  }

  ghost function AddNewFlow(s: QueueState, parent: Job, children: seq<Job>, now: Time): Out<Result<JobFlow>>
  {
    var owner := FindDeduplicationOwner(s, parent, now);
    if owner.Some? then
      Out(ExtendExpiration(s, parent, owner.value, now),
          Ok(JobFlow(s.jobs[owner.value], StoredJobs(ExtendExpiration(s, parent, owner.value, now), s.jobs[owner.value].childIds))))
    else if FirstConflict(s, parent.id, [], children).Some? then
      Out(s, Err(FirstConflict(s, parent.id, [], children).value))
    else
      var taken := if ActiveDeduplicationId(parent, now).Some? then {ActiveDeduplicationId(parent, now).value} else {};
      StartScanned(ScanDeduplication(s, children, taken, now), parent, children, now)
  }

  /** `add_flow_at`. */
  ghost function AddFlow(s: QueueState, spec: JobSpec, uuid: JobId, childSpecs: seq<JobSpec>, uuids: seq<JobId>, now: Time): Out<Result<JobFlow>>
    requires |childSpecs| == |uuids|
  {
    if !spec.options.ValidAt(now) || exists k | 0 <= k < |childSpecs| :: !childSpecs[k].options.ValidAt(now) then
      Out(s, Err(ConfigError))
    else
      var parent := NewJob(s.queue, spec, uuid, now);
      var children := ChildJobs(s.queue, parent.id, childSpecs, uuids, now);
      if !NoDuplicates([parent.id] + Ids(children)) then Out(s, Err(ConfigError))
      else if parent.id in s.jobs then AddFlowToExisting(s, parent.id, children, now)
      else AddNewFlow(s, parent, children, now)
  }

  /** The caller holds the job: it is active and the token is its own. */
  function RequireLease(s: QueueState, id: JobId, token: Token): Option<LaneError>
  {
    if id !in s.jobs then Some(JobNotFound)
    else if s.jobs[id].state != Active then Some(JobStateConflict)
    else if s.jobs[id].lockToken != Some(token) then Some(JobLeaseConflict)
    else None
  }

  function ChildCounts(s: QueueState, parentId: JobId): DependencyCounts
    requires parentId in s.jobs
  {
    Counts(s.jobs[parentId], s.jobs, IndexOf(s, parentId))
  }

  /** The parent gives up its lease and waits for `children`. */
  ghost function ParkBehind(s: QueueState, parentId: JobId, children: seq<Job>, now: Time): Out<Result<seq<Job>>>
    requires parentId in s.jobs
  {
    var listed := s.jobs[parentId].childIds;
    var conflict := FirstConflict(s, parentId, listed, children);
    if conflict.Some? then Out(s, Err(conflict.value)) else
      var scan := ScanDeduplication(s, children, {}, now);
      var joining := Unskipped(children, scan.skipped);
      if scan.conflict || !RepeatKeysFree(scan.state, Unstored(scan.state, joining)) then Out(scan.state, Err(ConfigError)) else
        var parent := Parked(scan.state.jobs[parentId]).(childIds := AppendNew(listed, Ids(joining)));
        Out(JoinFlow(scan.state, parentId, parent, joining, now),
            Ok(StoredJobs(AttachChildren(Put(scan.state, parentId, parent), parentId, joining), Ids(joining))))
  }

  /** `add_flow_children_at`: an active parent parks itself behind more children. */
  ghost function AddFlowChildren(s: QueueState, parentId: JobId, token: Token, specs: seq<JobSpec>, uuids: seq<JobId>, now: Time): Out<Result<seq<Job>>>
    requires |specs| == |uuids|
  {
    var children := ChildJobs(s.queue, parentId, specs, uuids, now);
    if specs == [] || exists k | 0 <= k < |specs| :: !specs[k].options.ValidAt(now) then Out(s, Err(ConfigError))
    else if !NoDuplicates([parentId] + Ids(children)) then Out(s, Err(ConfigError))
    else if RequireLease(s, parentId, token).Some? then Out(s, Err(RequireLease(s, parentId, token).value))
    else if ChildCounts(s, parentId).failed > 0 then Out(s, Err(JobStateConflict))
    else ParkBehind(s, parentId, children, now)
  }

  /** `remove_unprocessed_children`. */
  ghost function RemoveUnprocessedChildren(s: QueueState, parentId: JobId, now: Time): Out<Option<seq<Job>>>
  {
    if parentId !in s.jobs then Out(s, None) else
      var ids := Descendants.Walk(s.jobs, s.jobs[parentId].childIds, {}).out;
      Out(ReleaseParent(RemoveAll(s, Elements(ids)), parentId, now), Some(StoredJobs(s, ids)))
  }

  function Without(ids: seq<JobId>, id: JobId): seq<JobId>
  {
    if ids == [] then [] else
      Without(ids[..|ids| - 1], id) + (if ids[|ids| - 1] == id then [] else [ids[|ids| - 1]])
  }

  /** The state in which a child has left its parent's list and index. */
  function Detached(s: QueueState, parentId: JobId, childId: JobId): QueueState
    requires parentId in s.jobs && childId in s.jobs
  {
    var unlisted := Put(s, parentId, s.jobs[parentId].(childIds := Without(s.jobs[parentId].childIds, childId)));
    var cleared := ClearChildDependency(unlisted, parentId, childId);
    Put(cleared, childId, cleared.jobs[childId].(parentId := None))
  }

  /** `remove_child_dependency`: the child stays, detached. */
  ghost function RemoveChildDependency(s: QueueState, childId: JobId, now: Time): Out<Result<bool>>
  {
    if childId !in s.jobs then Out(s, Err(JobNotFound))
    else if s.jobs[childId].parentId.None? then Out(s, Ok(false)) else
      var parentId := s.jobs[childId].parentId.value;
      if parentId !in s.jobs then Out(s, Err(JobNotFound))
      else if childId !in s.jobs[parentId].childIds && !IndexOf(s, parentId).Contains(childId) then Out(s, Ok(false))
      else
        Out(ReleaseParent(Detached(s, parentId, childId), parentId, now), Ok(true))
  }

  // -- Claiming and finishing -------------------------------------------------

  function DueRanks(s: QueueState, now: Time): map<JobId, Rank>
  {
    map id | id in s.jobs && s.jobs[id].state == Delayed && s.jobs[id].scheduledAt <= now
      :: Rank(s.jobs[id].scheduledAt, s.jobs[id].createdAt, 0, 0)
  }

  function PromoteOne(s: QueueState, id: JobId): QueueState
  {
    if id !in s.jobs then s.(sequence := s.sequence + 1) else PutInOrder(s, id, s.jobs[id].(state := Waiting))
  }

  function PromoteEach(s: QueueState, ids: seq<JobId>): QueueState
  {
    if ids == [] then s else PromoteOne(PromoteEach(s, ids[..|ids| - 1]), ids[|ids| - 1])
  }

  /** `promote_due_locked`: earliest scheduled first. */
  ghost function PromoteDue(s: QueueState, now: Time): Out<nat>
  {
    var due := Sorted(DueRanks(s, now), DueRanks(s, now).Keys);
    Out(PromoteEach(s, due), |due|)
  }

  datatype Comparison = Less | Equal | Greater

  function CompareInt(a: int, b: int): Comparison
  {
    if a < b then Less else if a == b then Equal else Greater
  }

  function CompareId(a: JobId, b: JobId): Comparison
  {
    if a == b then Equal else if IdLess(a, b) then Less else Greater
  }

  function Then(first: Comparison, second: Comparison): Comparison
  {
    if first == Equal then second else first
  }

  function CompareWaitingOrder(a: Job, b: Job): Comparison
  {
    if a.enqueuedSeq == 0 && b.enqueuedSeq == 0 then CompareId(a.id, b.id)
    else if a.enqueuedSeq == 0 then Less
    else if b.enqueuedSeq == 0 then Greater
    else if a.options.lifo && b.options.lifo then CompareInt(b.enqueuedSeq, a.enqueuedSeq)
    else if a.options.lifo then Less
    else if b.options.lifo then Greater
    else CompareInt(a.enqueuedSeq, b.enqueuedSeq)
  }

  /** `compare_claim_order`. */
  function CompareClaimOrder(a: Job, b: Job): Comparison
  {
    Then(CompareInt(a.priority, b.priority),
    Then(CompareWaitingOrder(a, b),
    Then(CompareInt(a.scheduledAt, b.scheduledAt),
    Then(CompareInt(a.createdAt, b.createdAt),
         CompareId(a.id, b.id)))))
  }

  ghost predicate IsClaimable(s: QueueState, id: JobId)
  {
    && id in s.jobs && s.jobs[id].state == Waiting
    && forall other | other in s.jobs && s.jobs[other].state == Waiting && other != id
         :: CompareClaimOrder(s.jobs[id], s.jobs[other]) != Greater
  }

  ghost function ClaimableIds(s: QueueState): set<JobId>
  {
    set id | id in s.jobs && IsClaimable(s, id)
  }

  ghost function Any(ids: set<JobId>): (id: JobId)
    requires ids != {}
    ensures id in ids
  {
    var id :| id in ids;
    id
  }

  /** `min_by` over the waiting jobs. */
  ghost function Claimable(s: QueueState): (first: Option<JobId>)
    ensures first.None? <==> ClaimableIds(s) == {}
    ensures first.Some? ==> first.value in ClaimableIds(s)
  {
    if ClaimableIds(s) == {} then None else Some(Any(ClaimableIds(s)))
  }

  function Claimed(job: Job, worker: string, token: Token, leaseFor: Duration, now: Time): Job
  {
    job.(state := Active, attemptsMade := job.attemptsMade + 1, processedAt := Some(now),
         workerId := Some(worker), lockToken := Some(token), leaseExpiresAt := Some(Later(now, leaseFor)),
         failedReason := None)
  }

  /** `claim_next`. */
  ghost function ClaimNext(s: QueueState, worker: string, token: Token, leaseFor: Duration, now: Time): Out<Option<Job>>
  {
    if s.paused then Out(s, None) else
      var promoted := PromoteDue(s, now).state;
      var id := Claimable(promoted);
      if id.None? || id.value !in promoted.jobs then Out(promoted, None) else
        var job := Claimed(promoted.jobs[id.value], worker, token, leaseFor, now);
        Out(Put(promoted, id.value, job), Some(job))
  }

  function CompletedJob(job: Job, value: Value, now: Time): Job
  {
    Unleased(job).(state := Completed, finishedAt := Some(now), deferredFailure := None, returnValue := Some(value))
  }

  function RecordWithParent(s: QueueState, child: Job): QueueState
  {
    if child.parentId.None? then s else RecordTerminalChild(s, child.parentId.value, child)
  }

  /** `complete_job`. */
  ghost function Complete(s: QueueState, id: JobId, token: Token, value: Value, uuid: JobId, cronNext: Option<Time>, now: Time): Out<Result<Job>>
  {
    if RequireLease(s, id, token).Some? then Out(s, Err(RequireLease(s, id, token).value))
    else if ChildCounts(s, id).unprocessed > 0 || ChildCounts(s, id).failed > 0 then Out(s, Err(JobStateConflict))
    else
      var completed := CompletedJob(s.jobs[id], value, now);
      var recorded := RecordWithParent(Put(s, id, completed), completed);
      var retained := RetainFinished(recorded, id, completed, now);
      var next := NextRepeatJob(s.queue, completed, uuid, cronNext, now);
      var succeeded := if next.Some? then Insert(retained, next.value) else retained;
      Out(if completed.parentId.Some? then ReleaseParent(succeeded, completed.parentId.value, now) else succeeded,
          Ok(completed))
  }

  /** How a terminal child failure affects the child's parent. */
  datatype Reaction = Defer | Continue | Release | FailOutright

  function ReactionTo(child: Job): Reaction
  {
    if child.options.failParentOnFailure then Defer
    else if child.options.continueParentOnFailure then Continue
    else if FailureReleasesDependency(child) then Release
    else FailOutright
  }

  ghost function React(s: QueueState, child: Job, now: Time): QueueState
  {
    if child.parentId.None? then s else
      var parentId := child.parentId.value;
      match ReactionTo(child)
      case Defer => DeferParentFailure(s, parentId, child.id, now)
      case Continue => ContinueParent(s, parentId, now)
      case Release => ReleaseParent(s, parentId, now)
      case FailOutright => FailParent(s, parentId, ChildFailureReason(child.id, child.failedReason), now)
  }

  function RetryingJob(job: Job, error: string, backoff: Duration, now: Time): Job
  {
    Unleased(job).(state := Delayed, scheduledAt := Later(now, backoff), finishedAt := None,
                   deferredFailure := None, failedReason := Some(error))
  }

  function FailedJob(job: Job, error: string, now: Time): Job
  {
    Unleased(job).(state := Failed, finishedAt := Some(now), deferredFailure := None, failedReason := Some(error))
  }

  /** `fail_active_job`; `backoff` is the retry policy's delay for this attempt. */
  ghost function Fail(s: QueueState, id: JobId, token: Token, error: string, allowRetry: bool, backoff: Duration, now: Time): Out<Result<Job>>
  {
    if RequireLease(s, id, token).Some? then Out(s, Err(RequireLease(s, id, token).value))
    else if allowRetry && ShouldRetry(s.jobs[id]) then
      var retrying := RetryingJob(s.jobs[id], error, backoff, now);
      Out(Put(s, id, retrying), Ok(retrying))
    else
      var failed := FailedJob(s.jobs[id], error, now);
      var recorded := RecordWithParent(Put(s, id, failed), failed);
      Out(React(RetainFinished(recorded, id, failed, now), failed, now), Ok(failed))
  }

  /** `renew`. */
  function Renew(s: QueueState, id: JobId, token: Token, leaseFor: Duration, now: Time): Out<Result<Job>>
  {
    if RequireLease(s, id, token).Some? then Out(s, Err(RequireLease(s, id, token).value)) else
      var job := s.jobs[id].(leaseExpiresAt := Some(Later(now, leaseFor)));
      Out(Put(s, id, job), Ok(job))
  }

  /** `delay_active`. */
  function DelayActive(s: QueueState, id: JobId, token: Token, delay: Duration, now: Time): Out<Result<Job>>
  {
    if RequireLease(s, id, token).Some? then Out(s, Err(RequireLease(s, id, token).value)) else
      var current := s.jobs[id];
      var job := Unleased(current).(state := Delayed, options := current.options.(delay := Some(delay)),
                                    scheduledAt := Later(now, delay), processedAt := None,
                                    deferredFailure := None, failedReason := None);
      Out(Put(s, id, job), Ok(job))
  }

  /** `release_active`: back to waiting, ahead of every sequenced job of its priority. */
  function ReleaseActive(s: QueueState, id: JobId, token: Token, now: Time): Out<Result<Job>>
  {
    if RequireLease(s, id, token).Some? then Out(s, Err(RequireLease(s, id, token).value)) else
      var job := Unleased(s.jobs[id]).(state := Waiting, scheduledAt := now, processedAt := None,
                                       deferredFailure := None, failedReason := None, enqueuedSeq := 0);
      Out(Put(s, id, job), Ok(job))
  }

  // -- Stalled recovery --------------------------------------------------------

  function StalledRanks(s: QueueState, now: Time): map<JobId, Rank>
  {
    map id | id in s.jobs && s.jobs[id].state == Active && s.jobs[id].leaseExpiresAt.Some? && s.jobs[id].leaseExpiresAt.value <= now
      :: Rank(s.jobs[id].leaseExpiresAt.value,
              if s.jobs[id].processedAt.Some? then 1 else 0,
              if s.jobs[id].processedAt.Some? then s.jobs[id].processedAt.value else 0, 0)
  }

  function Stalled(job: Job): Job
  {
    Unleased(job).(stalledCount := job.stalledCount + 1, deferredFailure := None,
                   failedReason := Some("job stalled after worker lease expired"))
  }

  function Recovered(s: QueueState, id: JobId, now: Time): QueueState
    requires id in s.jobs
  {
    var job := Stalled(s.jobs[id]);
    if job.stalledCount > job.options.maxStalledCount && !IsRepeatSchedulerJob(job)
    then Put(s, id, job.(state := Failed, finishedAt := Some(now)))
    else PutInOrder(s, id, job.(state := Waiting, processedAt := None))
  }

  function RecoverEach(s: QueueState, ids: seq<JobId>, now: Time): QueueState
  {
    if ids == [] then s else
      var before := RecoverEach(s, ids[..|ids| - 1], now);
      if ids[|ids| - 1] in before.jobs then Recovered(before, ids[|ids| - 1], now) else before
  }

  /** The jobs among `ids` that recovery failed for good. */
  function FailedAmong(s: QueueState, ids: seq<JobId>): seq<Job>
  {
    if ids == [] then [] else
      var id := ids[|ids| - 1];
      FailedAmong(s, ids[..|ids| - 1]) + (if id in s.jobs && s.jobs[id].state == Failed then [s.jobs[id]] else [])
  }

  function RemovedAtOnce(failures: seq<Job>): set<JobId>
  {
    set k | 0 <= k < |failures| && failures[k].options.RemovesFailedImmediately() :: failures[k].id
  }

  ghost function SettleFailure(s: QueueState, failed: Job, now: Time): QueueState
  {
    var recorded := RecordWithParent(s, failed);
    if failed.options.FailedRetention().Some?
    then ApplyRetention(recorded, Failed, failed.options.FailedRetention().value, now) else recorded
  }

  ghost function SettleFailures(s: QueueState, failures: seq<Job>, now: Time): QueueState
  {
    if failures == [] then s
    else SettleFailure(SettleFailures(s, failures[..|failures| - 1], now), failures[|failures| - 1], now)
  }

  /** The parents of those failures that call for reaction `r`, in order. */
  ghost function ReactAll(s: QueueState, failures: seq<Job>, r: Reaction, now: Time): QueueState
  {
    if failures == [] then s else
      var before := ReactAll(s, failures[..|failures| - 1], r, now);
      var last := failures[|failures| - 1];
      if ReactionTo(last) == r then React(before, last, now) else before
  }

  ghost function Reactions(s: QueueState, failures: seq<Job>, now: Time): QueueState
  {
    ReactAll(ReactAll(ReactAll(ReactAll(s, failures, Defer, now), failures, Continue, now), failures, Release, now),
             failures, FailOutright, now)
  }

  /** Everything that follows once the stalled jobs themselves were rewritten. */
  ghost function AfterRecovery(s: QueueState, failures: seq<Job>, now: Time): QueueState
  {
    Reactions(SettleFailures(RemoveAll(s, RemovedAtOnce(failures)), failures, now), failures, now)
  }

  /** `recover_stalled_jobs`. */
  ghost function RecoverStalled(s: QueueState, now: Time): Out<nat>
  {
    var stalled := Sorted(StalledRanks(s, now), StalledRanks(s, now).Keys);
    var recovered := RecoverEach(s, stalled, now);
    Out(AfterRecovery(recovered, FailedAmong(recovered, stalled), now), |stalled|)
  }

  // -- Management ---------------------------------------------------------------

  /** `promote`. */
  function Promote(s: QueueState, id: JobId, now: Time): Out<Result<Job>>
  {
    if id !in s.jobs then Out(s, Err(JobNotFound))
    else if s.jobs[id].state != Delayed then Out(s, Err(JobStateConflict)) else
      var promoted := PutInOrder(s, id, s.jobs[id].(state := Waiting, scheduledAt := now));
      Out(promoted, Ok(promoted.jobs[id]))
  }

  /** `reschedule`. */
  function Reschedule(s: QueueState, id: JobId, delay: Duration, now: Time): Out<Result<Job>>
  {
    if delay == 0 then Out(s, Err(ConfigError))
    else if id !in s.jobs then Out(s, Err(JobNotFound))
    else if s.jobs[id].state != Delayed then Out(s, Err(JobStateConflict)) else
      var job := s.jobs[id].(options := s.jobs[id].options.(delay := Some(delay)), scheduledAt := Later(now, delay));
      Out(Put(s, id, job), Ok(job))
  }

  function RetriedJob(job: Job, now: Time): Job
  {
    Unleased(job).(state := Waiting, scheduledAt := now,
                   deduplicationExpiresAt := DeduplicationExpiration(job.options, now),
                   processedAt := None, finishedAt := None,
                   deferredFailure := None, failedReason := None, returnValue := None)
  }

  /** Another job owns the deduplication id or repeat key that a retry would reclaim. */
  ghost predicate RetryConflicts(s: QueueState, id: JobId, now: Time)
    requires id in s.jobs
  {
    || (DeduplicationId(s.jobs[id]).Some? && DeduplicationOwners(s, DeduplicationId(s.jobs[id]).value, now) - {id} != {})
    || (s.jobs[id].repeatKey.Some? && RepeatOwners(s, s.jobs[id].repeatKey.value) - {id} != {})
  }

  /** `retry`: a finished job waits again and blocks its parent again. */
  ghost function Retry(s: QueueState, id: JobId, now: Time): Out<Result<Job>>
  {
    if id !in s.jobs then Out(s, Err(JobNotFound))
    else if !s.jobs[id].state.IsTerminal() then Out(s, Err(JobStateConflict))
    else if RetryConflicts(s, id, now) then Out(s, Err(JobStateConflict)) else
      var waiting := PutInOrder(ForgetReleasedOwner(s, id, s.jobs[id]), id, RetriedJob(s.jobs[id], now));
      Out(if s.jobs[id].parentId.Some? then RestoreParent(waiting, s.jobs[id].parentId.value, id) else waiting,
          Ok(waiting.jobs[id]))
  }

  /** `set_priority_order`: a waiting job is requeued behind its new peers. */
  function SetPriority(s: QueueState, id: JobId, priority: nat, lifo: Option<bool>): Out<Result<Job>>
  {
    if priority > MAX_JOB_PRIORITY then Out(s, Err(ConfigError))
    else if id !in s.jobs then Out(s, Err(JobNotFound)) else
      var current := s.jobs[id];
      var options := current.options.(priority := priority, lifo := if lifo.Some? then lifo.value else current.options.lifo);
      var updated := PutInOrder(s, id, current.(priority := priority, options := options));
      Out(updated, Ok(updated.jobs[id]))
  }

  predicate IsRemovable(job: Job) { !(job.state == Active && job.lockToken.Some?) }

  ghost function RemoveAndRelease(s: QueueState, id: JobId, now: Time): QueueState
    requires id in s.jobs
  {
    if s.jobs[id].parentId.Some? then ReleaseParent(Remove(s, id), s.jobs[id].parentId.value, now) else Remove(s, id)
  }

  /** `remove`. */
  ghost function RemoveJob(s: QueueState, id: JobId, now: Time): Out<Result<Option<Job>>>
  {
    if id !in s.jobs then Out(s, Ok(None))
    else if !IsRemovable(s.jobs[id]) then Out(s, Err(JobLeaseConflict))
    else Out(RemoveAndRelease(s, id, now), Ok(Some(s.jobs[id])))
  }

  /** `remove_deduplication_key`. */
  ghost function RemoveDeduplicationKey(s: QueueState, dedupId: string, now: Time): Out<bool>
  {
    if dedupId == "" then Out(s, false) else
      var owner := Find(s, DeduplicationOwners(s, dedupId, now));
      if owner.None? then Out(s, false)
      else Out(s.(releasedOwners := s.releasedOwners + {(dedupId, owner.value)}), true)
  }

  /** Why `job` may not take over its repeat series from `owner`. */
  ghost function UpsertConflict(s: QueueState, job: Job, owner: Option<JobId>, now: Time): Option<LaneError>
    requires owner.Some? ==> owner.value in s.jobs
  {
    if owner.Some? && !IsRemovable(s.jobs[owner.value]) then Some(JobLeaseConflict)
    else if owner.Some? && (s.jobs[owner.value].parentId.Some? || s.jobs[owner.value].childIds != []) then Some(JobStateConflict)
    else if job.id in s.jobs && owner != Some(job.id) then Some(ConfigError)
    else if DeduplicationId(job).None? then None else
      var dedupOwner := Find(s, DeduplicationOwners(s, DeduplicationId(job).value, now));
      if dedupOwner.Some? && owner != dedupOwner then Some(JobStateConflict) else None
  }

  ghost function ReplaceRepeat(s: QueueState, job: Job, owner: Option<JobId>): QueueState
  {
    Insert(if owner.Some? then Remove(s, owner.value) else s, job)
  }

  /** `upsert_repeat`. */
  ghost function UpsertRepeat(s: QueueState, spec: JobSpec, uuid: JobId, now: Time): Out<Result<Job>>
  {
    var job := NewJob(s.queue, spec, uuid, now);
    if !spec.options.ValidAt(now) || spec.options.repeat.None? || job.repeatKey.None? || job.repeatKey.value == "" then
      Out(s, Err(ConfigError))
    else
      var owner := Find(s, RepeatOwners(s, job.repeatKey.value));
      var conflict := UpsertConflict(s, job, owner, now);
      if conflict.Some? then Out(s, Err(conflict.value))
      else Out(ReplaceRepeat(s, job, owner), Ok(ReplaceRepeat(s, job, owner).jobs[job.id]))
  }

  /** `remove_repeat`. */
  ghost function RemoveRepeat(s: QueueState, key: string, now: Time): Out<Result<Option<Job>>>
  {
    var owner := Find(s, RepeatOwners(s, key));
    if owner.None? then Out(s, Ok(None)) else RemoveJob(s, owner.value, now)
  }

  function ParentsOf(s: QueueState, ids: seq<JobId>): seq<JobId>
  {
    if ids == [] then [] else
      var id := ids[|ids| - 1];
      ParentsOf(s, ids[..|ids| - 1]) + (if id in s.jobs && s.jobs[id].parentId.Some? then [s.jobs[id].parentId.value] else [])
  }

  ghost function RemoveAllAndRelease(s: QueueState, ids: seq<JobId>, now: Time): QueueState
  {
    ReleaseParents(RemoveAll(s, Elements(ids)), ParentsOf(s, ids), now)
  }

  function CleanRanks(s: QueueState, state: JobState, cutoff: Time): map<JobId, Rank>
  {
    map id | id in s.jobs && s.jobs[id].state == state && ReferenceTime(s.jobs[id]) <= cutoff
             && (state != Active || s.jobs[id].lockToken.None?)
      :: Rank(ReferenceTime(s.jobs[id]), 0, 0, 0)
  }

  /** `clean`: the oldest records of one state, at most `limit`. */
  ghost function Clean(s: QueueState, state: JobState, grace: Duration, limit: nat, now: Time): Out<seq<Job>>
  {
    if limit == 0 then Out(s, []) else RemoveListed(s, CleanIds(s, state, Earlier(now, grace), limit), now)
  }

  ghost function CleanIds(s: QueueState, state: JobState, cutoff: Time, limit: nat): seq<JobId>
  {
    Take(Sorted(CleanRanks(s, state, cutoff), CleanRanks(s, state, cutoff).Keys), limit)
  }

  /** Records removed in order, answered as they were, and their parents released. */
  ghost function RemoveListed(s: QueueState, ids: seq<JobId>, now: Time): Out<seq<Job>>
  {
    Out(RemoveAllAndRelease(s, ids, now), StoredJobs(s, ids))
  }

  function StateRank(state: JobState): nat
  {
    match state
    case Waiting => 0
    case Delayed => 1
    case Active => 2
    case WaitingChildren => 3
    case Completed => 4
    case Failed => 5
  }

  ghost predicate IsDelayedRepeatOwner(s: QueueState, id: JobId)
    requires id in s.jobs
  {
    && s.jobs[id].state == Delayed
    && s.jobs[id].repeatKey.Some?
    && Find(s, RepeatOwners(s, s.jobs[id].repeatKey.value)) == Some(id)
  }

  ghost function DrainRanks(s: QueueState, includeDelayed: bool): map<JobId, Rank>
  {
    map id | id in s.jobs && (s.jobs[id].state == Waiting
                              || (includeDelayed && s.jobs[id].state == Delayed && !IsDelayedRepeatOwner(s, id)))
      :: Rank(StateRank(s.jobs[id].state), s.jobs[id].priority, s.jobs[id].scheduledAt, s.jobs[id].createdAt)
  }

  /** `drain`. */
  ghost function Drain(s: QueueState, includeDelayed: bool, now: Time): Out<seq<Job>>
  {
    var ranks := DrainRanks(s, includeDelayed);
    RemoveListed(s, Sorted(ranks, ranks.Keys), now)
  }

  /** `obliterate`: refusing because of active jobs leaves the queue paused. */
  function Obliterate(s: QueueState, force: bool): Out<Result<nat>>
  {
    if !force && exists id | id in s.jobs :: s.jobs[id].state == Active
    then Out(s.(paused := true), Err(JobStateConflict))
    else Out(s.(paused := false, jobs := map[], flowDependencies := map[], releasedOwners := {}), Ok(|s.jobs|))
  }

  /** `save_stacktrace`: the retained failure reason is overwritten. */
  function SaveStacktrace(s: QueueState, id: JobId, reason: string): Out<Result<Job>>
  {
    if id !in s.jobs then Out(s, Err(JobNotFound)) else
      var job := s.jobs[id].(failedReason := Some(reason));
      Out(Put(s, id, job), Ok(job))
  }

  /** The map may come to yield its entries in another order at any time. */
  function Rehash(s: QueueState, layout: Layout): QueueState { s.(layout := layout) }

  function SetPaused(s: QueueState, paused: bool): QueueState { s.(paused := paused) }
}
