/**
  What completing a job answers, stores, tells the parent and sets off next,
  read off the fields of the records before and after.
 */
module CompletionOutcomes {
  import opened Ordering
  import opened JobTypes
  import opened QueueModel
  import opened CoreInvariant
  import opened CoreSubmit
  import opened CoreLifecycle
  import opened FlowReaders
  import opened Operations
  import opened FanIn
  import opened Retention
  import opened RepeatSuccession
  import opened FanInLimits
  import opened ParentOutcomes

  /** The job ended at `now` with `value` as its result. */
  predicate EndedWith(before: Job, after: Job, value: Value, now: Time)
  {
    && SameWork(before, after) && IsUnleased(after)
    && after.state == Completed && after.finishedAt == Some(now) && after.returnValue == Some(value)
    && after.deferredFailure.None? && after.failedReason == before.failedReason
    && after.processedAt == before.processedAt && after.enqueuedSeq == before.enqueuedSeq
  }

  /** Neither dropped when it completes nor subject to a retention of results. */
  predicate KeepsResult(job: Job) { !job.options.removeOnComplete && job.options.completionRetention.None? }

  /** Who holds the lease is answered the completed job, with the value given, and that is the record kept. */
  lemma CompletionAnswers(s: QueueState, id: JobId, token: Token, value: Value, uuid: JobId, cronNext: Option<Time>, now: Time)
    requires Core(s) && uuid != "" && uuid !in s.jobs && Complete(s, id, token, value, uuid, cronNext, now).reply.Ok?
    ensures id in s.jobs && s.jobs[id].state == Active && s.jobs[id].lockToken == Some(token)
    ensures var job, t := Complete(s, id, token, value, uuid, cronNext, now).reply.value, Complete(s, id, token, value, uuid, cronNext, now).state;
            && EndedWith(s.jobs[id], job, value, now)
            && (id in t.jobs ==> t.jobs[id] == job)
            && (KeepsResult(s.jobs[id]) ==> id in t.jobs)
  {
    CompletionIs(s, id, token, value, uuid, cronNext, now);
    CompletedStays(s, id, value, uuid, cronNext, now);
  }

  lemma CompletedStays(s: QueueState, id: JobId, value: Value, uuid: JobId, cronNext: Option<Time>, now: Time)
    requires Core(s) && uuid != "" && uuid !in s.jobs && id in s.jobs && s.jobs[id].state == Active
    ensures var w := SucceededState(s, id, value, uuid, cronNext, now);
            var t := if s.jobs[id].parentId.Some? then ReleaseParent(w, s.jobs[id].parentId.value, now) else w;
            && (id in t.jobs ==> t.jobs[id] == CompletedJob(s.jobs[id], value, now))
            && (KeepsResult(s.jobs[id]) ==> id in t.jobs)
  {
    var completed := CompletedJob(s.jobs[id], value, now);
    CompletedFrame(s, id, completed, now);
    SucceededRecord(s, id, value, uuid, cronNext, now);
    var w := SucceededState(s, id, value, uuid, cronNext, now);
    if s.jobs[id].parentId.Some? && id in w.jobs { ReleaseSparesCompleted(w, s.jobs[id].parentId.value, now, id); }
    if s.jobs[id].parentId.Some? { ReleaseAddsNobody(w, s.jobs[id].parentId.value, now); }
  }

  /** The successor is stored beside the completed record, if that is kept. */
  lemma SucceededRecord(s: QueueState, id: JobId, value: Value, uuid: JobId, cronNext: Option<Time>, now: Time)
    requires uuid !in s.jobs && id in s.jobs
    ensures var w := SucceededState(s, id, value, uuid, cronNext, now);
            && (id in w.jobs ==> w.jobs[id] == CompletedJob(s.jobs[id], value, now))
            && (KeepsResult(s.jobs[id]) ==> id in w.jobs)
  {
    var completed := CompletedJob(s.jobs[id], value, now);
    CompletedFrame(s, id, completed, now);
    RecordTouchesNoJob(Put(s, id, completed), completed);
    var next := NextRepeatJob(s.queue, completed, uuid, cronNext, now);
    if next.Some? { InsertStores(RetainedState(s, id, completed, now), next.value); }
  }

  lemma ReleaseAddsNobody(s: QueueState, p: JobId, now: Time)
    ensures ReleaseParent(s, p, now).jobs.Keys <= s.jobs.Keys
  {
    ReleaseEnds(s, p, now);
  }

  lemma FailParentSparesCompleted(s: QueueState, p: JobId, reason: string, now: Time, x: JobId)
    requires x in s.jobs && s.jobs[x].state == Completed
    ensures var t := FailParent(s, p, reason, now); x in t.jobs && t.jobs[x] == s.jobs[x]
  {
    if p in s.jobs && !s.jobs[p].state.IsTerminal() {
      var failed := FailedParent(s.jobs[p], reason, now);
      var retention := failed.options.FailedRetention();
      if retention.Some? { RetentionTouchesOneState(Put(s, p, failed), Failed, retention.value, now); }
    }
  }

  lemma ReleaseSparesCompleted(s: QueueState, p: JobId, now: Time, x: JobId)
    requires x in s.jobs && s.jobs[x].state == Completed
    ensures var t := ReleaseParent(s, p, now); x in t.jobs && t.jobs[x] == s.jobs[x]
  {
    if IsParked(s, p) {
      match ScanChildren(s, s.jobs[p].childIds)
      case Blocked =>
      case Ready(Some(c), _) => ResumedRuns(s, p, Some(c), now);
      case Ready(None, Some(c)) =>
        FailParentSparesCompleted(s, p, ChildFailureReason(c, if c in s.jobs then s.jobs[c].failedReason else None), now, x);
      case Ready(None, None) => ResumedRuns(s, p, None, now);
    }
  }

  // -- When it is allowed ---------------------------------------------------------------------------

  /** A listed child that is stored, unfinished and not indexed yet. */
  predicate IsPending(s: QueueState, p: JobId, c: JobId)
  {
    !IndexOf(s, p).Contains(c) && c in s.jobs && s.jobs[c].state != Completed && s.jobs[c].state != Failed
  }

  /** A listed child that is indexed as failed, or failed without anything to excuse it. */
  predicate IsUnforgiven(s: QueueState, p: JobId, c: JobId)
  {
    || c in IndexOf(s, p).failed
    || (!IndexOf(s, p).Contains(c) && c in s.jobs && s.jobs[c].state == Failed
        && !s.jobs[c].options.ignoreDependencyOnFailure && !s.jobs[c].options.continueParentOnFailure
        && !s.jobs[c].options.removeDependencyOnFailure)
  }

  /** A completion goes through exactly under the lease, and only once no listed child is pending or unforgiven. */
  lemma CompletionIsAllowedIff(s: QueueState, id: JobId, token: Token, value: Value, uuid: JobId, cronNext: Option<Time>, now: Time)
    requires Core(s)
    ensures Complete(s, id, token, value, uuid, cronNext, now).reply.Ok?
       <==> && id in s.jobs && s.jobs[id].state == Active && s.jobs[id].lockToken == Some(token)
            && forall c | c in s.jobs[id].childIds :: !IsPending(s, id, c) && !IsUnforgiven(s, id, c)
    ensures Complete(s, id, token, value, uuid, cronNext, now).reply.Err? ==> Complete(s, id, token, value, uuid, cronNext, now).state == s
  {
    if RequireLease(s, id, token).None? { DependenciesAreResolvedIff(s, id); }
  }

  lemma PendingAreUnprocessed(s: QueueState, p: JobId)
    requires Core(s) && p in s.jobs
    ensures ChildCounts(s, p).unprocessed == 0 <==> forall c | c in s.jobs[p].childIds :: !IsPending(s, p, c)
  {
    var parent, index := s.jobs[p], IndexOf(s, p);
    assert WellFormedJob(p, parent);
    CountsFromRecords(s.jobs, index, parent.childIds);
    NoneIffEmpty(Recorded(s.jobs, index, parent.childIds, In(Unprocessed)));
    forall c | c in parent.childIds ensures IsPending(s, p, c) <==> c in Recorded(s.jobs, index, parent.childIds, In(Unprocessed)) {}
  }

  lemma FailuresAreUnforgiven(s: QueueState, p: JobId)
    requires Core(s) && p in s.jobs
    ensures ChildCounts(s, p).failed == 0 <==> forall c | c in s.jobs[p].childIds :: !IsUnforgiven(s, p, c)
  {
    var parent, index := s.jobs[p], IndexOf(s, p);
    assert WellFormedJob(p, parent);
    assert forall c | c in index.failed :: c in parent.childIds;
    CountsFromRecords(s.jobs, index, parent.childIds);
    var failed := Recorded(s.jobs, index, parent.childIds, In(Failure));
    NoneIffEmpty(index.failed);
    NoneIffEmpty(failed);
    forall c | c in parent.childIds ensures IsUnforgiven(s, p, c) <==> c in index.failed || c in failed {}
  }

  lemma DependenciesAreResolvedIff(s: QueueState, p: JobId)
    requires Core(s) && p in s.jobs
    ensures ChildCounts(s, p).unprocessed == 0 && ChildCounts(s, p).failed == 0
       <==> forall c | c in s.jobs[p].childIds :: !IsPending(s, p, c) && !IsUnforgiven(s, p, c)
  {
    PendingAreUnprocessed(s, p);
    FailuresAreUnforgiven(s, p);
  }

  lemma NoneIffEmpty(ids: set<JobId>)
    ensures |ids| == 0 <==> forall c :: c !in ids
  {
    if |ids| != 0 { var c :| c in ids; }
  }

  // -- The parent -----------------------------------------------------------------------------------

  /** A retained parent that lists the job finds the value among its processed children, also when the job's record is gone. */
  lemma CompletionReachesTheParent(s: QueueState, id: JobId, token: Token, value: Value, uuid: JobId, cronNext: Option<Time>, now: Time, p: JobId)
    requires Core(s) && uuid != "" && uuid !in s.jobs && Complete(s, id, token, value, uuid, cronNext, now).reply.Ok?
    requires s.jobs[id].parentId == Some(p) && p in s.jobs && id in s.jobs[p].childIds
    requires p in Complete(s, id, token, value, uuid, cronNext, now).state.jobs
    ensures HasResult(Complete(s, id, token, value, uuid, cronNext, now).state, p, id, value)
  {
    CompletionIs(s, id, token, value, uuid, cronNext, now);
    ResultIsKept(s, id, value, uuid, cronNext, now, p);
  }

  /** `p` has `value` as the result of its child `c`, and nothing else about it. */
  predicate HasResult(s: QueueState, p: JobId, c: JobId, value: Value)
  {
    var index := IndexOf(s, p);
    c in index.processed && index.processed[c] == value && c !in index.ignored && c !in index.failed
  }

  lemma ResultIsKept(s: QueueState, id: JobId, value: Value, uuid: JobId, cronNext: Option<Time>, now: Time, p: JobId)
    requires Core(s) && uuid != "" && uuid !in s.jobs && id in s.jobs && s.jobs[id].state == Active
    requires s.jobs[id].parentId == Some(p) && p in s.jobs && id in s.jobs[p].childIds
    ensures var t := ReleaseParent(SucceededState(s, id, value, uuid, cronNext, now), p, now); p in t.jobs ==> HasResult(t, p, id, value)
  {
    var w := SucceededState(s, id, value, uuid, cronNext, now);
    assert WellFormedJob(id, s.jobs[id]);
    ResultIsIndexed(s, id, CompletedJob(s.jobs[id], value, now), value, now, p);
    SucceededIs(s, id, value, uuid, cronNext, now);
    SucceededIsCore(s, id, value, uuid, cronNext, now);
    SuccessorKeepsIndexes(s, id, value, uuid, cronNext, now, p);
    ReleaseParentIsCalm(w, p, now);
  }

  lemma SucceededIsCore(s: QueueState, id: JobId, value: Value, uuid: JobId, cronNext: Option<Time>, now: Time)
    requires Core(s) && uuid != "" && uuid !in s.jobs && id in s.jobs && s.jobs[id].state == Active
    ensures Core(SucceededState(s, id, value, uuid, cronNext, now))
  {
    var completed := CompletedJob(s.jobs[id], value, now);
    assert WellFormedJob(id, s.jobs[id]);
    CompletedKeeps(s, id, value, now);
    CompletedFrame(s, id, completed, now);
    if NextRepeatJob(s.queue, completed, uuid, cronNext, now).Some? {
      SuccessorStored(s, RetainedState(s, id, completed, now), id, completed, uuid, cronNext, now);
    }
  }

  lemma ResultIsIndexed(s: QueueState, id: JobId, completed: Job, value: Value, now: Time, p: JobId)
    requires Core(s) && id in s.jobs && s.jobs[id].state == Active && WellFormedJob(id, completed)
    requires completed.state == Completed && completed.returnValue == Some(value) && completed.parentId == Some(p)
    requires completed.childIds == s.jobs[id].childIds && completed.lockToken.None? && completed.enqueuedSeq == s.jobs[id].enqueuedSeq
    requires p in s.jobs && id in s.jobs[p].childIds
    ensures p in RetainedState(s, id, completed, now).jobs ==> HasResult(RetainedState(s, id, completed, now), p, id, value)
  {
    PutKeeps(s, id, completed);
    RecordedResult(Put(s, id, completed), completed, value, p);
    RecordWithParentIsCalm(Put(s, id, completed), completed);
    RetainFinishedIsCalm(RecordWithParent(Put(s, id, completed), completed), id, completed, now);
  }

  lemma RecordedResult(s: QueueState, completed: Job, value: Value, p: JobId)
    requires completed.state == Completed && completed.returnValue == Some(value) && completed.parentId == Some(p)
    requires p in s.jobs && completed.id in s.jobs[p].childIds
    ensures HasResult(RecordWithParent(s, completed), p, completed.id, value)
  {
  }

  lemma SuccessorKeepsIndexes(s: QueueState, id: JobId, value: Value, uuid: JobId, cronNext: Option<Time>, now: Time, p: JobId)
    requires uuid !in s.jobs && id in s.jobs && p in s.jobs
    ensures var u, w := RetainedState(s, id, CompletedJob(s.jobs[id], value, now), now), SucceededState(s, id, value, uuid, cronNext, now);
            IndexOf(w, p) == IndexOf(u, p) && (p in w.jobs ==> p in u.jobs)
  {
    var completed := CompletedJob(s.jobs[id], value, now);
    var next := NextRepeatJob(s.queue, completed, uuid, cronNext, now);
    if next.Some? { InsertStores(RetainedState(s, id, completed, now), next.value); }
  }

  /**
    The parked parent of a completed job. It stays while another listed child is
    unfinished; otherwise it reports the last failure it has to report, or fails
    for the last one without a policy, or runs again with nothing to report.
   */
  lemma CompletionWakesTheParent(s: QueueState, id: JobId, token: Token, value: Value, uuid: JobId, cronNext: Option<Time>, now: Time, p: JobId)
    requires Core(s) && uuid != "" && uuid !in s.jobs && Complete(s, id, token, value, uuid, cronNext, now).reply.Ok?
    requires s.jobs[id].parentId == Some(p) && IsParked(s, p) && uuid !in s.jobs[p].childIds
    ensures CompletionSays(s, Complete(s, id, token, value, uuid, cronNext, now).state, id, p, now)
  {
    CompletionIs(s, id, token, value, uuid, cronNext, now);
    SucceededFrame(s, id, value, uuid, cronNext, now);
    ReleaseAfterSuccess(s, SucceededState(s, id, value, uuid, cronNext, now), id, uuid, p, now);
  }

  /** What the end of `id` leads to for its parked parent. */
  ghost predicate CompletionSays(s: QueueState, t: QueueState, id: JobId, p: JobId, now: Time)
    requires p in s.jobs
  {
    var ids := s.jobs[p].childIds;
    if exists c :: c in ids && c != id && c in Unfinished(s) then p in t.jobs && t.jobs[p] == s.jobs[p]
    else if exists c :: c in ids && c in Fatal(s) then ReportsTheLast(s, t, p, now)
    else if exists c :: c in ids && c in Damning(s) then FailsForTheLast(s, t, p, now)
    else p in t.jobs && RunsAgain(s.jobs[p], t.jobs[p], None, now) && BehindAll(s, t.jobs[p])
  }

  /** `w` is `s` after `id` completed and was succeeded by `uuid`, if at all. */
  ghost predicate Concluded(s: QueueState, w: QueueState, id: JobId, uuid: JobId)
  {
    && w.sequence >= s.sequence && id in s.jobs && s.jobs[id].state == Active && uuid !in s.jobs
    && (id in w.jobs ==> w.jobs[id].state == Completed)
    && (forall x | x in w.jobs && x != id && x != uuid :: x in s.jobs && w.jobs[x] == s.jobs[x])
    && (forall x | x in s.jobs && x != id && s.jobs[x].state != Completed :: x in w.jobs)
  }

  lemma ReleaseAfterSuccess(s: QueueState, w: QueueState, id: JobId, uuid: JobId, p: JobId, now: Time)
    requires Concluded(s, w, id, uuid) && IsParked(s, p) && uuid !in s.jobs[p].childIds
    ensures CompletionSays(s, ReleaseParent(w, p, now), id, p, now)
  {
    ReleaseDecides(w, p, now);
    SameChildren(s, w, id, uuid, s.jobs[p].childIds);
    DecidedBefore(s, w, ReleaseParent(w, p, now), id, p, now);
  }

  /** What completing a job leaves of everybody else. */
  lemma SucceededFrame(s: QueueState, id: JobId, value: Value, uuid: JobId, cronNext: Option<Time>, now: Time)
    requires id in s.jobs && s.jobs[id].state == Active && uuid !in s.jobs
    ensures Concluded(s, SucceededState(s, id, value, uuid, cronNext, now), id, uuid)
  {
    var completed := CompletedJob(s.jobs[id], value, now);
    var u := RetainedState(s, id, completed, now);
    CompletedFrame(s, id, completed, now);
    RetainedGrows(s, id, completed, now);
    assert Concluded(s, u, id, uuid);
    var next := NextRepeatJob(s.queue, completed, uuid, cronNext, now);
    if next.Some? { InsertedConcludes(s, u, next.value, id, uuid); }
  }

  lemma RetainedGrows(s: QueueState, id: JobId, completed: Job, now: Time)
    ensures RetainedState(s, id, completed, now).sequence == s.sequence
  {
    RecordTouchesNoJob(Put(s, id, completed), completed);
  }

  lemma InsertedConcludes(s: QueueState, u: QueueState, next: Job, id: JobId, uuid: JobId)
    requires Concluded(s, u, id, uuid) && next.id == uuid
    ensures Concluded(s, Insert(u, next), id, uuid)
  {
    InsertStores(u, next);
  }

  lemma SameChildren(s: QueueState, w: QueueState, id: JobId, uuid: JobId, ids: seq<JobId>)
    requires Concluded(s, w, id, uuid) && uuid !in ids
    ensures SameKinds(s, w, id, ids)
  {
  }

  /** Of `ids`, the same children are unfinished, `id` excepted, and the same failed, as they were. */
  ghost predicate SameKinds(s: QueueState, w: QueueState, id: JobId, ids: seq<JobId>)
  {
    && (forall c | c in ids :: c in Unfinished(w) <==> c != id && c in Unfinished(s))
    && (forall c | c in ids :: c in Fatal(w) <==> c in Fatal(s))
    && (forall c | c in ids :: c in Damning(w) <==> c in Damning(s))
    && (forall c | c in ids && c in Damning(w) :: w.jobs[c] == s.jobs[c])
  }

  lemma SameLast(ids: seq<JobId>, a: set<JobId>, b: set<JobId>, who: Option<JobId>)
    requires LastOf(ids, a, who) && forall c | c in ids :: c in a <==> c in b
    ensures LastOf(ids, b, who)
  {
    if who.Some? {
      var k :| 0 <= k < |ids| && ids[k] == who.value && forall j | k < j < |ids| :: ids[j] !in a;
      assert forall j | k < j < |ids| :: ids[j] !in b;
    }
  }

  /** The release decides what could be foreseen before the completion. */
  lemma DecidedBefore(s: QueueState, w: QueueState, t: QueueState, id: JobId, p: JobId, now: Time)
    requires p in s.jobs && p in w.jobs && w.jobs[p] == s.jobs[p] && w.sequence >= s.sequence
    requires SameKinds(s, w, id, s.jobs[p].childIds) && ReleaseSays(w, t, p, now)
    ensures CompletionSays(s, t, id, p, now)
  {
    var ids := s.jobs[p].childIds;
    if c :| c in ids && c in Unfinished(w) {
      assert c != id && c in Unfinished(s);
    } else if c :| c in ids && c in Fatal(w) {
      assert c in Fatal(s);
      ReportedBefore(s, w, t, p, now);
    } else if c :| c in ids && c in Damning(w) {
      assert c in Damning(s);
      FailedBefore(s, w, t, id, p, now);
    }
  }

  lemma ReportedBefore(s: QueueState, w: QueueState, t: QueueState, p: JobId, now: Time)
    requires p in s.jobs && p in w.jobs && w.jobs[p] == s.jobs[p] && w.sequence >= s.sequence
    requires (forall c | c in s.jobs[p].childIds :: c in Fatal(w) <==> c in Fatal(s)) && ReportsTheLast(w, t, p, now)
    ensures ReportsTheLast(s, t, p, now)
  {
    SameLast(s.jobs[p].childIds, Fatal(w), Fatal(s), t.jobs[p].deferredFailure);
  }

  lemma FailedBefore(s: QueueState, w: QueueState, t: QueueState, id: JobId, p: JobId, now: Time)
    requires p in s.jobs && p in w.jobs && w.jobs[p] == s.jobs[p]
    requires SameKinds(s, w, id, s.jobs[p].childIds) && FailsForTheLast(w, t, p, now)
    ensures FailsForTheLast(s, t, p, now)
  {
    var ids := s.jobs[p].childIds;
    if p in t.jobs {
      var c :| c in w.jobs && LastOf(ids, Damning(w), Some(c)) && FailedFor(w.jobs[p], t.jobs[p], BecauseOf(c, w.jobs[c].failedReason), now);
      SameLast(ids, Damning(w), Damning(s), Some(c));
      assert c in ids;
    }
  }

  // -- The successor --------------------------------------------------------------------------------------

  /** When a series continues: `at` is the next occurrence. */
  predicate Continues(job: Job, at: Option<Time>)
  {
    && job.options.repeat.Some? && at.Some?
    && (job.options.repeat.value.limit.Some? ==> job.repeatCount + 1 < job.options.repeat.value.limit.value)
    && (job.options.repeat.value.endAt.Some? ==> at.value <= job.options.repeat.value.endAt.value)
  }

  /** A fixed interval counts from now; a cron expression knows its own next occurrence. */
  function NextOccurrence(job: Job, cronNext: Option<Time>, now: Time): Option<Time>
  {
    if job.options.repeat.None? then None
    else match job.options.repeat.value.schedule
         case Every(interval) => Some(now + interval)
         case Cron(_) => cronNext
  }

  /** The next occurrence of `job`, new but for its series. */
  predicate IsNextOccurrence(job: Job, next: Job, uuid: JobId, at: Time, now: Time)
  {
    && next.id == uuid && next.name == job.name && next.options == job.options.(jobId := None) && next.priority == job.options.priority
    && next.scheduledAt == at && next.createdAt == now && next.state == (if at > now then Delayed else Waiting)
    && next.repeatKey == job.repeatKey && next.repeatCount == job.repeatCount + 1
    && next.attemptsMade == 0 && next.stalledCount == 0 && IsUnleased(next) && next.parentId.None? && next.childIds == []
    && next.returnValue.None? && next.failedReason.None? && next.deferredFailure.None? && next.finishedAt.None? && next.processedAt.None?
    && next.deduplicationExpiresAt == ExpiryOf(job, now)
  }

  function ExpiryOf(job: Job, now: Time): Option<Time>
  {
    match job.options.deduplication
    case Some(d) => (match d.ttl case Some(ttl) => Some(now + ttl) case None => None)
    case None => None
  }

  /** The completion of a repeat job stores its next occurrence exactly while the series goes on. */
  lemma CompletionContinuesTheSeries(s: QueueState, id: JobId, token: Token, value: Value, uuid: JobId, cronNext: Option<Time>, now: Time)
    requires Core(s) && uuid != "" && uuid !in s.jobs && Complete(s, id, token, value, uuid, cronNext, now).reply.Ok?
    ensures var t, at := Complete(s, id, token, value, uuid, cronNext, now).state, NextOccurrence(s.jobs[id], cronNext, now);
            if Continues(s.jobs[id], at)
            then uuid in t.jobs && IsNextOccurrence(s.jobs[id], t.jobs[uuid], uuid, at.value, now) && BehindAll(s, t.jobs[uuid])
            else t.jobs.Keys <= s.jobs.Keys
  {
    CompletionIs(s, id, token, value, uuid, cronNext, now);
    SuccessorIsNext(s, id, value, uuid, cronNext, now);
    var w := SucceededState(s, id, value, uuid, cronNext, now);
    if s.jobs[id].parentId.Some? {
      var p := s.jobs[id].parentId.value;
      ReleaseAddsNobody(w, p, now);
      if uuid in w.jobs { ReleaseSparesRunning(w, p, now, uuid); }
    }
  }

  lemma ReleaseSparesRunning(s: QueueState, p: JobId, now: Time, x: JobId)
    requires IsLiveJob(s, x) && !IsParked(s, x)
    ensures var t := ReleaseParent(s, p, now); x in t.jobs && t.jobs[x] == s.jobs[x]
  {
    if IsParked(s, p) { ReleaseDecides(s, p, now); }
  }

  lemma SuccessorIsNext(s: QueueState, id: JobId, value: Value, uuid: JobId, cronNext: Option<Time>, now: Time)
    requires uuid !in s.jobs && id in s.jobs && s.jobs[id].state == Active
    ensures var w, at := SucceededState(s, id, value, uuid, cronNext, now), NextOccurrence(s.jobs[id], cronNext, now);
            if Continues(s.jobs[id], at)
            then uuid in w.jobs && IsNextOccurrence(s.jobs[id], w.jobs[uuid], uuid, at.value, now) && BehindAll(s, w.jobs[uuid])
            else w.jobs.Keys <= s.jobs.Keys
  {
    var completed := CompletedJob(s.jobs[id], value, now);
    var u := RetainedState(s, id, completed, now);
    CompletedFrame(s, id, completed, now);
    RetainedGrows(s, id, completed, now);
    NextIsNextOccurrence(s.queue, s.jobs[id], completed, uuid, cronNext, now);
    var next := NextRepeatJob(s.queue, completed, uuid, cronNext, now);
    if next.Some? { NextIsStored(u, next.value, s.jobs[id], uuid, NextOccurrence(s.jobs[id], cronNext, now).value, now); }
  }

  lemma NextIsNextOccurrence(queue: string, job: Job, completed: Job, uuid: JobId, cronNext: Option<Time>, now: Time)
    requires completed.options == job.options && completed.name == job.name
    requires completed.repeatKey == job.repeatKey && completed.repeatCount == job.repeatCount
    ensures var next, at := NextRepeatJob(queue, completed, uuid, cronNext, now), NextOccurrence(job, cronNext, now);
            if Continues(job, at) then next.Some? && IsNextOccurrence(job, next.value, uuid, at.value, now) else next.None?
  {
  }

  lemma NextIsStored(u: QueueState, next: Job, job: Job, uuid: JobId, at: Time, now: Time)
    requires IsNextOccurrence(job, next, uuid, at, now)
    ensures var w := Insert(u, next); uuid in w.jobs && IsNextOccurrence(job, w.jobs[uuid], uuid, at, now) && BehindAll(u, w.jobs[uuid])
  {
    InsertStores(u, next);
  }
}
