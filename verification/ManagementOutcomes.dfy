/**
  What the management operations answer and leave behind: promoting,
  rescheduling, retrying, reprioritising and removing one job, cleaning,
  draining and obliterating many, and releasing a deduplication id.
 */
module ManagementOutcomes {
  import opened Ordering
  import opened JobTypes
  import opened QueueModel
  import opened CoreInvariant
  import opened Operations
  import opened FanIn
  import opened DeduplicationOwnership
  import Repeats = RepeatSeries
  import opened ParentOutcomes
  import opened CompletionOutcomes
  import opened ClaimOutcomes

  /** `job` is stored in place of the record of `id`, and nothing else changed but the counter. */
  predicate Replaces(s: QueueState, t: QueueState, id: JobId, job: Job)
  {
    t == s.(jobs := s.jobs[id := job], sequence := t.sequence) && s.sequence <= t.sequence
  }

  // -- One job ----------------------------------------------------------------------------------

  /** A delayed job waits now, behind all that waited. */
  lemma PromoteAnswers(s: QueueState, id: JobId, now: Time)
    ensures var o := Promote(s, id, now);
            if id in s.jobs && s.jobs[id].state == Delayed then
              && o.reply.Ok? && Replaces(s, o.state, id, o.reply.value) && BehindAll(s, o.reply.value)
              && o.reply.value == s.jobs[id].(state := Waiting, scheduledAt := now, enqueuedSeq := o.reply.value.enqueuedSeq)
            else o == Out(s, Err(if id !in s.jobs then JobNotFound else JobStateConflict))
  {
  }

  /** A delayed job is put off by a positive delay from now. */
  lemma RescheduleAnswers(s: QueueState, id: JobId, delay: Duration, now: Time)
    ensures var o := Reschedule(s, id, delay, now);
            if delay > 0 && id in s.jobs && s.jobs[id].state == Delayed then
              && o.reply.Ok? && o.state == s.(jobs := s.jobs[id := o.reply.value])
              && o.reply.value == s.jobs[id].(scheduledAt := now + delay, options := s.jobs[id].options.(delay := Some(delay)))
            else o == Out(s, Err(if delay == 0 then ConfigError else if id !in s.jobs then JobNotFound else JobStateConflict))
  {
  }

  /** A valid priority is taken over, with the lifo flag if one is given; a waiting job goes behind its new peers. */
  lemma PriorityAnswers(s: QueueState, id: JobId, priority: nat, lifo: Option<bool>)
    ensures var o := SetPriority(s, id, priority, lifo);
            if priority <= 2097152 && id in s.jobs then
              && o.reply.Ok? && Replaces(s, o.state, id, o.reply.value) && BehindAll(s, o.reply.value)
              && var job := s.jobs[id];
                 var flag := match lifo case Some(given) => given case None => job.options.lifo;
                 && o.reply.value == job.(priority := priority, options := job.options.(priority := priority, lifo := flag),
                                          enqueuedSeq := o.reply.value.enqueuedSeq)
                 && (job.state != Waiting ==> o.reply.value.enqueuedSeq == job.enqueuedSeq)
            else o == Out(s, Err(if priority > 2097152 then ConfigError else JobNotFound))
  {
  }

  // -- Retrying a finished job ----------------------------------------------------------------------

  /** `x` occupies deduplication id `d` at `now`: it was not released from it, it has not expired, and only a running expiry outlives the job. */
  predicate Occupies(s: QueueState, x: JobId, d: string, now: Time)
  {
    && x in s.jobs && s.jobs[x].options.deduplication.Some? && s.jobs[x].options.deduplication.value.id == d
    && (d, x) !in s.releasedOwners
    && (match s.jobs[x].deduplicationExpiresAt
        case Some(at) => now < at
        case None => s.jobs[x].state != Completed && s.jobs[x].state != Failed)
  }

  /** `x` is the unfinished occurrence of series `key`. */
  predicate Occurs(s: QueueState, x: JobId, key: string)
  {
    x in s.jobs && s.jobs[x].repeatKey == Some(key) && s.jobs[x].state != Completed && s.jobs[x].state != Failed
  }

  lemma OwnersOccupy(s: QueueState, x: JobId, d: string, now: Time)
    ensures IsDeduplicationOwner(s, x, d, now) <==> Occupies(s, x, d, now)
  {
  }

  lemma RepeatOwnersOccur(s: QueueState, x: JobId, key: string)
    ensures IsRepeatOwner(s, x, key) <==> Occurs(s, x, key)
  {
  }

  /** Somebody else took the id or the series of the finished job. */
  ghost predicate WasReplaced(s: QueueState, id: JobId, now: Time)
    requires id in s.jobs
  {
    || (s.jobs[id].options.deduplication.Some? && exists x :: x != id && Occupies(s, x, s.jobs[id].options.deduplication.value.id, now))
    || (s.jobs[id].repeatKey.Some? && exists x :: x != id && Occurs(s, x, s.jobs[id].repeatKey.value))
  }

  lemma ConflictMeansReplaced(s: QueueState, id: JobId, now: Time)
    requires id in s.jobs
    ensures RetryConflicts(s, id, now) <==> WasReplaced(s, id, now)
  {
    if s.jobs[id].options.deduplication.Some? {
      var d := s.jobs[id].options.deduplication.value.id;
      forall x ensures x in DeduplicationOwners(s, d, now) <==> Occupies(s, x, d, now) { OwnersOccupy(s, x, d, now); }
      SomebodyElse(DeduplicationOwners(s, d, now), id);
    }
    if s.jobs[id].repeatKey.Some? {
      var key := s.jobs[id].repeatKey.value;
      forall x ensures x in RepeatOwners(s, key) <==> Occurs(s, x, key) { RepeatOwnersOccur(s, x, key); }
      SomebodyElse(RepeatOwners(s, key), id);
    }
  }

  lemma SomebodyElse(ids: set<JobId>, id: JobId)
    ensures ids - {id} != {} <==> exists x :: x != id && x in ids
  {
    if ids - {id} != {} { var x :| x in ids - {id}; }
    if x :| x != id && x in ids { assert x in ids - {id}; }
  }

  /** A finished job as good as new, but for its attempts and its place in flow and series. */
  predicate StartsOver(before: Job, after: Job, now: Time)
  {
    && SameWork(before, after.(scheduledAt := before.scheduledAt, deduplicationExpiresAt := before.deduplicationExpiresAt)) && IsUnleased(after)
    && after.state == Waiting && after.scheduledAt == now && after.deduplicationExpiresAt == ExpiryOf(before, now)
    && after.processedAt.None? && after.finishedAt.None? && after.failedReason.None? && after.deferredFailure.None? && after.returnValue.None?
  }

  /** A parent waits again for its child, and has forgotten how that ended. */
  predicate WaitsForChild(before: Job, after: Job)
  {
    && SameWork(before, after) && IsUnleased(after) && after.state == WaitingChildren
    && after.processedAt.None? && after.finishedAt.None? && after.failedReason.None? && after.deferredFailure.None?
    && after.returnValue == before.returnValue && after.enqueuedSeq == before.enqueuedSeq
  }

  /** The retained parent that waits, or is queued, and lists the job. */
  predicate CanWaitFor(s: QueueState, p: JobId, id: JobId)
  {
    p in s.jobs && (s.jobs[p].state == Waiting || s.jobs[p].state == Delayed || s.jobs[p].state == WaitingChildren) && id in s.jobs[p].childIds
  }

  /** A finished job starts over unless its id or its series was taken, and a parent that can wait for it does. */
  lemma RetryAnswers(s: QueueState, id: JobId, now: Time)
    requires Core(s)
    ensures var o := Retry(s, id, now);
            if id !in s.jobs then o == Out(s, Err(JobNotFound))
            else if s.jobs[id].state != Completed && s.jobs[id].state != Failed then o == Out(s, Err(JobStateConflict))
            else if WasReplaced(s, id, now) then o == Out(s, Err(JobStateConflict))
            else o.reply.Ok? && RetrySays(s, o.state, id, o.reply.value, now)
  {
    if id in s.jobs {
      ConflictMeansReplaced(s, id, now);
      if Retry(s, id, now).reply.Ok? { RetriedSays(s, id, now); }
    }
  }

  ghost predicate RetrySays(s: QueueState, t: QueueState, id: JobId, job: Job, now: Time)
    requires id in s.jobs
  {
    && t.jobs.Keys == s.jobs.Keys && StartsOver(s.jobs[id], job, now) && BehindAll(s, job)
    && (s.jobs[id].parentId != Some(id) ==> t.jobs[id] == job)
    && (match s.jobs[id].parentId
        case Some(p) =>
          && (forall x | x in s.jobs && x != id && x != p :: t.jobs[x] == s.jobs[x])
          && (p != id && p in s.jobs ==> if CanWaitFor(s, p, id) then WaitsForChild(s.jobs[p], t.jobs[p]) else t.jobs[p] == s.jobs[p])
        case None => forall x | x in s.jobs && x != id :: t.jobs[x] == s.jobs[x])
  }

  lemma RetriedSays(s: QueueState, id: JobId, now: Time)
    requires Core(s) && Retry(s, id, now).reply.Ok?
    ensures RetrySays(s, Retry(s, id, now).state, id, Retry(s, id, now).reply.value, now)
  {
    var forgotten := ForgetReleasedOwner(s, id, s.jobs[id]);
    var waiting := PutInOrder(forgotten, id, RetriedJob(s.jobs[id], now));
    PutInOrderStores(forgotten, id, RetriedJob(s.jobs[id], now));
    RestoredSays(s, waiting, id, waiting.jobs[id], now);
  }

  lemma RestoredSays(s: QueueState, w: QueueState, id: JobId, job: Job, now: Time)
    requires id in s.jobs && w.jobs == s.jobs[id := job] && StartsOver(s.jobs[id], job, now) && BehindAll(s, job)
    ensures RetrySays(s, if s.jobs[id].parentId.Some? then RestoreParent(w, s.jobs[id].parentId.value, id) else w, id, job, now)
  {
    if s.jobs[id].parentId.Some? { RestoredParentWaits(w, s.jobs[id].parentId.value, id); }
  }

  lemma RestoredParentWaits(w: QueueState, p: JobId, id: JobId)
    ensures var t := RestoreParent(w, p, id);
            && t.jobs.Keys == w.jobs.Keys && (forall x | x in w.jobs && x != p :: t.jobs[x] == w.jobs[x])
            && (p in w.jobs ==> if CanWaitFor(w, p, id) then WaitsForChild(w.jobs[p], t.jobs[p]) else t.jobs[p] == w.jobs[p])
  {
    ClearTouchesJobs(w, p, id);
  }

  lemma ClearTouchesJobs(s: QueueState, p: JobId, c: JobId)
    ensures ClearChildDependency(s, p, c).jobs == s.jobs
  {
  }

  // -- Releasing a deduplication id ------------------------------------------------------------------

  /** Where ids have one owner at most, releasing an id frees it, and says whether it was taken. */
  lemma ReleasedIdIsFree(s: QueueState, d: string, now: Time)
    requires UniqueOwners(s, now) && d != ""
    ensures var o := RemoveDeduplicationKey(s, d, now);
            && o.state == s.(releasedOwners := o.state.releasedOwners)
            && (o.reply <==> exists x :: Occupies(s, x, d, now))
            && (forall x :: !Occupies(o.state, x, d, now))
            && (forall x, e | e != d :: Occupies(o.state, x, e, now) <==> Occupies(s, x, e, now))
  {
    var o := RemoveDeduplicationKey(s, d, now);
    forall x ensures x in DeduplicationOwners(s, d, now) <==> Occupies(s, x, d, now) { OwnersOccupy(s, x, d, now); }
    forall x ensures !Occupies(o.state, x, d, now) {
      if Occupies(s, x, d, now) { OwnersOccupy(s, x, d, now); OwnerLookupIsDetermined(s, d, now, x); }
    }
  }

  // -- Removing jobs ----------------------------------------------------------------------------------

  /** A job that no worker holds is removed and answered as it was; its absence is no error. */
  lemma RemovalAnswers(s: QueueState, id: JobId, now: Time)
    ensures var o := RemoveJob(s, id, now);
            if id !in s.jobs then o == Out(s, Ok(None))
            else if s.jobs[id].state == Active && s.jobs[id].lockToken.Some? then o == Out(s, Err(JobLeaseConflict))
            else o.reply == Ok(Some(s.jobs[id])) && id !in o.state.jobs
                 && forall x | IsLiveJob(s, x) && x != id && s.jobs[id].parentId != Some(x) :: x in o.state.jobs && o.state.jobs[x] == s.jobs[x]
  {
    if id in s.jobs && s.jobs[id].parentId.Some? { RemovedAndReleased(s, id, s.jobs[id].parentId.value, now); }
  }

  lemma RemovedAndReleased(s: QueueState, id: JobId, p: JobId, now: Time)
    requires id in s.jobs
    ensures var t := ReleaseParent(Remove(s, id), p, now);
            id !in t.jobs && forall x | IsLiveJob(s, x) && x != id && x != p :: x in t.jobs && t.jobs[x] == s.jobs[x]
  {
    var removed := Remove(s, id);
    assert forall x | IsLiveJob(s, x) && x != id :: IsLiveJob(removed, x) && removed.jobs[x] == s.jobs[x];
    if IsParked(removed, p) { ReleaseDecides(removed, p, now); }
    ReleaseAddsNobody(removed, p, now);
  }

  /** When a record is as old as a clean-up reckons: its end, else its start, else its schedule. */
  function AgeOf(job: Job): Time
  {
    match job.finishedAt
    case Some(at) => at
    case None => match job.processedAt case Some(at) => at case None => job.scheduledAt
  }

  /** The records a clean-up may take: of its state, old enough, and held by no worker. */
  predicate MayClean(s: QueueState, x: JobId, state: JobState, cutoff: Time)
  {
    x in s.jobs && s.jobs[x].state == state && AgeOf(s.jobs[x]) <= cutoff && !(state == Active && s.jobs[x].lockToken.Some?)
  }

  predicate IsOlder(a: Job, b: Job) { AgeOf(a) < AgeOf(b) || (AgeOf(a) == AgeOf(b) && ByteLess(a.id, b.id)) }

  ghost predicate AreRecords(s: QueueState, jobs: seq<Job>, ids: seq<JobId>)
  {
    |jobs| == |ids| && forall k | 0 <= k < |ids| :: ids[k] in s.jobs && jobs[k] == s.jobs[ids[k]]
  }

  lemma {:induction false} StoredAreRecords(s: QueueState, ids: seq<JobId>)
    requires forall id | id in ids :: id in s.jobs
    ensures AreRecords(s, StoredJobs(s, ids), ids)
    decreases |ids|
  {
    if ids != [] {
      var n := |ids| - 1;
      assert ids == ids[..n] + [ids[n]];
      StoredAreRecords(s, ids[..n]);
    }
  }

  lemma {:induction false} ReleasesAddNobody(s: QueueState, parentIds: seq<JobId>, now: Time)
    ensures ReleaseParents(s, parentIds, now).jobs.Keys <= s.jobs.Keys
    decreases |parentIds|
  {
    if parentIds != [] {
      var n := |parentIds| - 1;
      ReleasesAddNobody(s, parentIds[..n], now);
      ReleaseAddsNobody(ReleaseParents(s, parentIds[..n], now), parentIds[n], now);
    }
  }

  /** The oldest records that may be cleaned, oldest first, up to `limit`. */
  ghost predicate AreOldest(s: QueueState, ids: seq<JobId>, state: JobState, cutoff: Time, limit: nat)
  {
    && |ids| <= limit && (forall id | id in ids :: MayClean(s, id, state, cutoff))
    && (forall i, j | 0 <= i < j < |ids| :: OlderIn(s, ids[i], ids[j]))
    && (forall x | MayClean(s, x, state, cutoff) && x !in ids :: |ids| == limit && forall id | id in ids :: OlderIn(s, id, x))
  }

  predicate OlderIn(s: QueueState, x: JobId, y: JobId) { x in s.jobs && y in s.jobs && IsOlder(s.jobs[x], s.jobs[y]) }

  /** The jobs answered are the records of `ids` before, and none of these is stored afterwards; who is unfinished and waits for none of them is as before. */
  ghost predicate AreGone(s: QueueState, t: QueueState, jobs: seq<Job>, ids: seq<JobId>)
  {
    && AreRecords(s, jobs, ids) && (forall id | id in ids :: id !in t.jobs)
    && forall x | IsLiveJob(s, x) && x !in ids && !AwaitsOneOf(s, x, ids) :: x in t.jobs && t.jobs[x] == s.jobs[x]
  }

  /** `x` is parked, and the parent of a listed job. */
  ghost predicate AwaitsOneOf(s: QueueState, x: JobId, ids: seq<JobId>)
  {
    x in s.jobs && s.jobs[x].state == WaitingChildren && exists id :: id in ids && id in s.jobs && s.jobs[id].parentId == Some(x)
  }

  lemma {:induction false} ReleasesSpareTheRest(s: QueueState, parentIds: seq<JobId>, now: Time, x: JobId)
    requires IsLiveJob(s, x) && (s.jobs[x].state != WaitingChildren || x !in parentIds)
    ensures var t := ReleaseParents(s, parentIds, now); x in t.jobs && t.jobs[x] == s.jobs[x]
    decreases |parentIds|
  {
    if parentIds != [] {
      var n := |parentIds| - 1;
      var t := ReleaseParents(s, parentIds[..n], now);
      ReleasesSpareTheRest(s, parentIds[..n], now, x);
      if IsParked(t, parentIds[n]) { ReleaseDecides(t, parentIds[n], now); }
    }
  }

  lemma {:induction false} OnlyParentsOf(s: QueueState, ids: seq<JobId>, p: JobId)
    requires p in ParentsOf(s, ids)
    ensures exists id :: id in ids && id in s.jobs && s.jobs[id].parentId == Some(p)
    decreases |ids|
  {
    var n := |ids| - 1;
    assert ids[n] in ids;
    if p in ParentsOf(s, ids[..n]) {
      OnlyParentsOf(s, ids[..n], p);
      var id :| id in ids[..n] && id in s.jobs && s.jobs[id].parentId == Some(p);
      assert id in ids;
    }
  }

  /** A clean-up takes the oldest records it may, oldest first, up to its limit, answers them as they were, and leaves none of them. */
  lemma CleanAnswers(s: QueueState, state: JobState, grace: Duration, limit: nat, now: Time)
    requires Core(s)
    ensures var o := Clean(s, state, grace, limit, now);
            exists ids :: AreOldest(s, ids, state, Earlier(now, grace), limit) && AreGone(s, o.state, o.reply, ids)
    ensures Earlier(now, grace) == now - grace
  {
    var ids := if limit == 0 then [] else CleanIds(s, state, Earlier(now, grace), limit);
    if limit > 0 {
      CleanTakesTheOldest(s, state, Earlier(now, grace), limit);
      ListedAreGone(s, ids, now);
    }
    assert AreOldest(s, ids, state, Earlier(now, grace), limit);
    assert AreGone(s, Clean(s, state, grace, limit, now).state, Clean(s, state, grace, limit, now).reply, ids);
  }

  lemma ListedAreGone(s: QueueState, ids: seq<JobId>, now: Time)
    requires forall id | id in ids :: id in s.jobs
    ensures var o := RemoveListed(s, ids, now); AreGone(s, o.state, o.reply, ids)
  {
    StoredAreRecords(s, ids);
    var removed := RemoveAll(s, Elements(ids));
    ReleasesAddNobody(removed, ParentsOf(s, ids), now);
    forall x | IsLiveJob(s, x) && x !in ids && !AwaitsOneOf(s, x, ids)
      ensures var t := ReleaseParents(removed, ParentsOf(s, ids), now); x in t.jobs && t.jobs[x] == s.jobs[x]
    {
      if x in ParentsOf(s, ids) { OnlyParentsOf(s, ids, x); }
      assert x in removed.jobs && removed.jobs[x] == s.jobs[x];
      ReleasesSpareTheRest(removed, ParentsOf(s, ids), now, x);
    }
  }

  lemma CleanOrder(s: QueueState, state: JobState, cutoff: Time, x: JobId, y: JobId)
    requires Core(s) && x in CleanRanks(s, state, cutoff) && y in CleanRanks(s, state, cutoff)
    ensures Before(CleanRanks(s, state, cutoff), x, y) <==> OlderIn(s, x, y)
  {
    assert WellFormedJob(x, s.jobs[x]) && WellFormedJob(y, s.jobs[y]);
    IdLessIsByteLess(x, y);
  }

  lemma CleanTakesTheOldest(s: QueueState, state: JobState, cutoff: Time, limit: nat)
    requires Core(s)
    ensures AreOldest(s, CleanIds(s, state, cutoff, limit), state, cutoff, limit)
  {
    var ranks := CleanRanks(s, state, cutoff);
    var all := Sorted(ranks, ranks.Keys);
    forall x ensures x in ranks <==> MayClean(s, x, state, cutoff) {}
    forall i, j | 0 <= i < j < |all| ensures OlderIn(s, all[i], all[j]) {
      assert all[i] in ranks && all[j] in ranks;
      CleanOrder(s, state, cutoff, all[i], all[j]);
    }
    FirstAreOldest(s, all, state, cutoff, limit);
  }

  lemma FirstAreOldest(s: QueueState, all: seq<JobId>, state: JobState, cutoff: Time, limit: nat)
    requires forall x :: x in all <==> MayClean(s, x, state, cutoff)
    requires forall i, j | 0 <= i < j < |all| :: OlderIn(s, all[i], all[j])
    ensures AreOldest(s, Take(all, limit), state, cutoff, limit)
  {
    var ids := Take(all, limit);
    forall x | MayClean(s, x, state, cutoff) && x !in ids ensures |ids| == limit && forall id | id in ids :: OlderIn(s, id, x) {
      var j :| 0 <= j < |all| && all[j] == x;
      assert |all| <= limit ==> ids == all;
      forall id | id in ids ensures OlderIn(s, id, x) { var i :| 0 <= i < |ids| && ids[i] == id; assert all[i] == id; }
    }
  }

  /** What draining takes: waiting jobs, and if asked delayed ones that are not the next occurrence of a series. */
  predicate IsDrained(s: QueueState, x: JobId, includeDelayed: bool)
  {
    && x in s.jobs
    && (s.jobs[x].state == Waiting || (includeDelayed && s.jobs[x].state == Delayed && s.jobs[x].repeatKey.None?))
  }

  /** Obliterating empties an idle or forced queue and opens it again; otherwise it only pauses. */
  lemma ObliterationAnswers(s: QueueState, force: bool)
    ensures var o := Obliterate(s, force);
            if force || forall x | x in s.jobs :: s.jobs[x].state != Active
            then o.reply == Ok(|s.jobs|) && o.state == s.(paused := false, jobs := map[], flowDependencies := map[], releasedOwners := {})
            else o == Out(s.(paused := true), Err(JobStateConflict))
  {
  }

  /** Waiting jobs are listed before delayed ones, each by priority, schedule, creation and id. */
  predicate DrainsFirst(a: Job, b: Job)
  {
    || (a.state == Waiting && b.state == Delayed)
    || (a.state == b.state && a.priority < b.priority)
    || (a.state == b.state && a.priority == b.priority && a.scheduledAt < b.scheduledAt)
    || (a.state == b.state && a.priority == b.priority && a.scheduledAt == b.scheduledAt && a.createdAt < b.createdAt)
    || (a.state == b.state && a.priority == b.priority && a.scheduledAt == b.scheduledAt && a.createdAt == b.createdAt && ByteLess(a.id, b.id))
  }

  /** The jobs a drain takes, in the order it answers them. */
  ghost predicate AreDrained(s: QueueState, ids: seq<JobId>, includeDelayed: bool)
  {
    && (forall x :: x in ids <==> IsDrained(s, x, includeDelayed))
    && forall i, j | 0 <= i < j < |ids| :: ids[i] in s.jobs && ids[j] in s.jobs && DrainsFirst(s.jobs[ids[i]], s.jobs[ids[j]])
  }

  lemma DrainOrder(s: QueueState, includeDelayed: bool, x: JobId, y: JobId)
    requires Core(s) && x in DrainRanks(s, includeDelayed) && y in DrainRanks(s, includeDelayed) && Before(DrainRanks(s, includeDelayed), x, y)
    ensures DrainsFirst(s.jobs[x], s.jobs[y])
  {
    assert WellFormedJob(x, s.jobs[x]) && WellFormedJob(y, s.jobs[y]);
    IdLessIsByteLess(x, y);
  }

  lemma DrainListsInOrder(s: QueueState, includeDelayed: bool)
    requires Core(s) && Repeats.UniqueRepeats(s)
    ensures var ranks := DrainRanks(s, includeDelayed); AreDrained(s, Sorted(ranks, ranks.Keys), includeDelayed)
  {
    var ranks := DrainRanks(s, includeDelayed);
    var ids := Sorted(ranks, ranks.Keys);
    Repeats.DelayedRepeatsOwn(s);
    forall x ensures x in ranks <==> IsDrained(s, x, includeDelayed) {}
    forall i, j | 0 <= i < j < |ids| ensures ids[i] in s.jobs && ids[j] in s.jobs && DrainsFirst(s.jobs[ids[i]], s.jobs[ids[j]]) {
      assert ids[i] in ranks && ids[j] in ranks;
      DrainOrder(s, includeDelayed, ids[i], ids[j]);
    }
  }

  /** Draining takes exactly those jobs in that order, answers them as they were, and leaves none of them. */
  lemma DrainAnswers(s: QueueState, includeDelayed: bool, now: Time)
    requires Core(s) && Repeats.UniqueRepeats(s)
    ensures var o := Drain(s, includeDelayed, now);
            exists ids :: AreDrained(s, ids, includeDelayed) && AreGone(s, o.state, o.reply, ids)
  {
    var ids := Sorted(DrainRanks(s, includeDelayed), DrainRanks(s, includeDelayed).Keys);
    DrainListsInOrder(s, includeDelayed);
    ListedAreGone(s, ids, now);
  }
}
