/**
  What failing a job answers, stores and tells the parent, read off the fields
  of the records before and after.
 */
module FailureOutcomes {
  import opened Ordering
  import opened JobTypes
  import opened QueueModel
  import opened CoreInvariant
  import opened CoreSubmit
  import opened CoreLifecycle
  import opened Operations
  import opened FanIn
  import opened RepeatSuccession
  import opened ParentOutcomes

  /** The attempt that just failed is followed by another: retries are allowed and not used up. */
  predicate HasRetryLeft(job: Job, allowRetry: bool)
  {
    allowRetry && 0 < job.options.maxRetries && job.attemptsMade <= job.options.maxRetries
  }

  /** The job is put off until `at` because of `error`. */
  predicate PutOff(before: Job, after: Job, error: string, at: Time)
  {
    && SameWork(before, after.(scheduledAt := before.scheduledAt)) && IsUnleased(after)
    && after.state == Delayed && after.scheduledAt == at && after.failedReason == Some(error)
    && after.deferredFailure.None? && after.finishedAt.None? && after.processedAt == before.processedAt
    && after.returnValue == before.returnValue && after.enqueuedSeq == before.enqueuedSeq
  }

  /** Who holds the lease may fail the job; the answer is a delay while a retry is left, and a failure otherwise. */
  lemma FailureAnswers(s: QueueState, id: JobId, token: Token, error: string, allowRetry: bool, backoff: Duration, now: Time)
    requires Core(s) && Fail(s, id, token, error, allowRetry, backoff, now).reply.Ok?
    ensures id in s.jobs && s.jobs[id].state == Active && s.jobs[id].lockToken == Some(token)
    ensures var job, t := Fail(s, id, token, error, allowRetry, backoff, now).reply.value, Fail(s, id, token, error, allowRetry, backoff, now).state;
            if HasRetryLeft(s.jobs[id], allowRetry)
            then PutOff(s.jobs[id], job, error, now + backoff) && t == s.(jobs := s.jobs[id := job])
            else FailedFor(s.jobs[id], job, error, now) && job.enqueuedSeq == s.jobs[id].enqueuedSeq && (id in t.jobs ==> t.jobs[id] == job)
                 && (s.jobs[id].parentId.None? && KeepsFailure(s.jobs[id]) ==> id in t.jobs)
  {
    if !HasRetryLeft(s.jobs[id], allowRetry) {
      assert WellFormedJob(id, s.jobs[id]);
      FinalFailureStays(s, id, FailedJob(s.jobs[id], error, now), now);
    }
  }

  lemma FinalFailureStays(s: QueueState, id: JobId, failed: Job, now: Time)
    requires Core(s) && id in s.jobs && WellFormedJob(id, failed) && failed.state == Failed
    requires failed.childIds == s.jobs[id].childIds && failed.lockToken.None? && failed.enqueuedSeq == s.jobs[id].enqueuedSeq
    requires s.jobs[id].state == Active
    ensures var t := React(RetainedState(s, id, failed, now), failed, now);
            && (id in t.jobs ==> t.jobs[id] == failed)
            && (failed.parentId.None? && KeepsFailure(failed) ==> id in t.jobs)
  {
    var w := RetainedState(s, id, failed, now);
    FinishKeeps(s, id, failed, now);
    RecordTouchesNoJob(Put(s, id, failed), failed);
    RetainedSame(RecordWithParent(Put(s, id, failed), failed), id, failed, now);
    ReactIsCalm(w, failed, now);
    if id in React(w, failed, now).jobs { assert CalmJob(w.jobs[id], React(w, failed, now).jobs[id]); }
  }

  /** A failure is refused, and changes nothing, unless the job is active under the token. */
  lemma FailureIsRefused(s: QueueState, id: JobId, token: Token, error: string, allowRetry: bool, backoff: Duration, now: Time)
    requires !(id in s.jobs && s.jobs[id].state == Active && s.jobs[id].lockToken == Some(token))
    ensures Fail(s, id, token, error, allowRetry, backoff, now)
         == Out(s, Err(if id !in s.jobs then JobNotFound else if s.jobs[id].state != Active then JobStateConflict else JobLeaseConflict))
  {
  }

  // -- The parent ---------------------------------------------------------------------------------

  /** What a child that failed for good tells its live parent, by the child's policy. */
  ghost predicate ParentIsTold(s: QueueState, t: QueueState, p: JobId, child: Job, now: Time)
    requires p in s.jobs
  {
    if child.options.failParentOnFailure then
      p in t.jobs && RunsAgain(s.jobs[p], t.jobs[p], Some(child.id), now) && BehindAll(s, t.jobs[p])
    else if child.options.continueParentOnFailure then
      p in t.jobs && if s.jobs[p].state == WaitingChildren
                     then RunsAgain(s.jobs[p], t.jobs[p], None, now) && BehindAll(s, t.jobs[p])
                     else t.jobs[p] == s.jobs[p]
    else if child.options.ignoreDependencyOnFailure || child.options.removeDependencyOnFailure then
      && (s.jobs[p].state != WaitingChildren || (exists c :: c in s.jobs[p].childIds && c != child.id && c in Unfinished(s))
          ==> p in t.jobs && t.jobs[p] == s.jobs[p])
      && (s.jobs[p].state == WaitingChildren && (forall c | c in s.jobs[p].childIds && c != child.id && c in s.jobs :: s.jobs[c].state == Completed)
          ==> p in t.jobs && RunsAgain(s.jobs[p], t.jobs[p], None, now) && BehindAll(s, t.jobs[p]))
    else
      && !IsLiveJob(t, p) && (KeepsFailure(s.jobs[p]) ==> p in t.jobs)
      && (p in t.jobs ==> FailedFor(s.jobs[p], t.jobs[p], BecauseOf(child.id, child.failedReason), now))
  }

  lemma ReleaseTells(s: QueueState, p: JobId, child: Job, now: Time)
    requires IsLiveJob(s, p) && child.state == Failed && !child.options.failParentOnFailure && !child.options.continueParentOnFailure
    requires child.options.ignoreDependencyOnFailure || child.options.removeDependencyOnFailure
    requires child.id in s.jobs ==> s.jobs[child.id] == child
    ensures ParentIsTold(s, ReleaseParent(s, p, now), p, child, now)
    ensures forall x | IsLiveJob(s, x) && x != p :: x in ReleaseParent(s, p, now).jobs && ReleaseParent(s, p, now).jobs[x] == s.jobs[x]
  {
    if IsParked(s, p) { ReleaseDecides(s, p, now); }
  }

  lemma ReactionTells(s: QueueState, p: JobId, child: Job, now: Time)
    requires IsLiveJob(s, p) && child.parentId == Some(p) && child.state == Failed
    requires child.id in s.jobs ==> s.jobs[child.id] == child
    ensures ParentIsTold(s, React(s, child, now), p, child, now)
    ensures forall x | IsLiveJob(s, x) && x != p :: x in React(s, child, now).jobs && React(s, child, now).jobs[x] == s.jobs[x]
  {
    if child.options.failParentOnFailure {
      ResumedRuns(s, p, Some(child.id), now);
    } else if child.options.continueParentOnFailure {
      if IsParked(s, p) { ResumedRuns(s, p, None, now); }
    } else if child.options.ignoreDependencyOnFailure || child.options.removeDependencyOnFailure {
      ReleaseTells(s, p, child, now);
    } else {
      FailedParentSays(s, p, ChildFailureReason(child.id, child.failedReason), now);
    }
  }

  /**
    The parent of a job that fails for good. If the child asks for it, the
    parent, parked or running, is queued again with this failure to report;
    otherwise it goes on, stays, or fails for it.
   */
  lemma FailureTellsTheParent(s: QueueState, id: JobId, token: Token, error: string, allowRetry: bool, backoff: Duration, now: Time, p: JobId)
    requires Core(s) && Fail(s, id, token, error, allowRetry, backoff, now).reply.Ok?
    requires !HasRetryLeft(s.jobs[id], allowRetry) && s.jobs[id].parentId == Some(p) && IsLiveJob(s, p) && p != id
    ensures ParentIsTold(s, Fail(s, id, token, error, allowRetry, backoff, now).state, p,
                         Fail(s, id, token, error, allowRetry, backoff, now).reply.value, now)
    ensures var t := Fail(s, id, token, error, allowRetry, backoff, now).state;
            forall x | IsLiveJob(s, x) && x != p && x != id :: x in t.jobs && t.jobs[x] == s.jobs[x]
  {
    assert WellFormedJob(id, s.jobs[id]);
    FailedChildTells(s, id, FailedJob(s.jobs[id], error, now), p, now);
  }

  lemma FailedChildTells(s: QueueState, id: JobId, failed: Job, p: JobId, now: Time)
    requires Core(s) && id in s.jobs && failed.state == Failed && failed.id == id && failed.parentId == Some(p) && IsLiveJob(s, p) && p != id
    ensures var t := React(RetainedState(s, id, failed, now), failed, now);
            && ParentIsTold(s, t, p, failed, now)
            && forall x | IsLiveJob(s, x) && x != p && x != id :: x in t.jobs && t.jobs[x] == s.jobs[x]
  {
    var w := RetainedState(s, id, failed, now);
    SettledChild(s, id, failed, now);
    ReactionTells(w, p, failed, now);
    ToldBefore(s, w, React(w, failed, now), p, failed, now);
  }

  /** Ending a job leaves the unfinished others and the counter alone. */
  lemma SettledChild(s: QueueState, id: JobId, failed: Job, now: Time)
    requires id in s.jobs && failed.state == Failed
    ensures var w := RetainedState(s, id, failed, now);
            && w.sequence == s.sequence && (id in w.jobs ==> w.jobs[id] == failed)
            && (forall x | x in w.jobs && x != id :: x in s.jobs && w.jobs[x] == s.jobs[x])
            && (forall x | IsLiveJob(s, x) && x != id :: x in w.jobs)
  {
    var recorded := RecordWithParent(Put(s, id, failed), failed);
    RecordTouchesNoJob(Put(s, id, failed), failed);
    RetainedSame(recorded, id, failed, now);
    forall x | IsLiveJob(s, x) && x != id ensures x in RetainedState(s, id, failed, now).jobs {
      RetentionSparesLive(recorded, id, failed, now, x);
    }
  }

  /** What the parent is told may be read off the state before the child ended. */
  lemma ToldBefore(s: QueueState, w: QueueState, t: QueueState, p: JobId, child: Job, now: Time)
    requires IsLiveJob(s, p) && p != child.id && p in w.jobs && w.jobs[p] == s.jobs[p] && w.sequence == s.sequence
    requires ParentIsTold(w, t, p, child, now)
    requires forall x | x in w.jobs && x != child.id :: x in s.jobs && w.jobs[x] == s.jobs[x]
    requires forall x | IsLiveJob(s, x) && x != child.id :: x in w.jobs
    ensures ParentIsTold(s, t, p, child, now)
  {
  }

  // -- The parent's index ---------------------------------------------------------------------------

  /** Of every child but `c` the two indexes say the same. */
  predicate SameBut(before: DependencyIndex, after: DependencyIndex, c: JobId)
  {
    after.processed - {c} == before.processed - {c} && after.ignored - {c} == before.ignored - {c} && after.failed - {c} == before.failed - {c}
  }

  /** The index after `c` failed because of `error`: fatal, forgiven with its reason, or forgotten, by the child's policy. */
  predicate IndexIsTold(before: DependencyIndex, after: DependencyIndex, c: JobId, options: JobOptions, error: string)
  {
    && SameBut(before, after, c)
    && if options.ignoreDependencyOnFailure || options.continueParentOnFailure then
         c in after.ignored && after.ignored[c] == error && c !in after.processed && c !in after.failed
       else if options.failParentOnFailure then c in after.failed && c !in after.processed && c !in after.ignored
       else if options.removeDependencyOnFailure then c !in after.processed && c !in after.ignored && c !in after.failed
       else after == before
  }

  /** A retained parent that lists a child failing for good has it indexed by the child's policy, also when the child's record is gone; no other index changes. */
  lemma FailureIsIndexed(s: QueueState, id: JobId, token: Token, error: string, allowRetry: bool, backoff: Duration, now: Time, p: JobId)
    requires Core(s) && Fail(s, id, token, error, allowRetry, backoff, now).reply.Ok? && !HasRetryLeft(s.jobs[id], allowRetry)
    requires p in Fail(s, id, token, error, allowRetry, backoff, now).state.jobs
    ensures p in s.jobs
    ensures var t := Fail(s, id, token, error, allowRetry, backoff, now).state;
            if s.jobs[id].parentId == Some(p) && id in s.jobs[p].childIds
            then IndexIsTold(IndexOf(s, p), IndexOf(t, p), id, s.jobs[id].options, error)
            else IndexOf(t, p) == IndexOf(s, p)
  {
    assert WellFormedJob(id, s.jobs[id]);
    EndIsIndexed(s, id, FailedJob(s.jobs[id], error, now), now, p);
  }

  lemma EndIsIndexed(s: QueueState, id: JobId, failed: Job, now: Time, p: JobId)
    requires Core(s) && id in s.jobs && s.jobs[id].state == Active && WellFormedJob(id, failed) && failed.state == Failed && failed.failedReason.Some?
    requires failed.childIds == s.jobs[id].childIds && failed.lockToken.None? && failed.enqueuedSeq == s.jobs[id].enqueuedSeq
    requires p in React(RetainedState(s, id, failed, now), failed, now).jobs
    ensures p in s.jobs
    ensures var t := React(RetainedState(s, id, failed, now), failed, now);
            if failed.parentId == Some(p) && id in s.jobs[p].childIds
            then IndexIsTold(IndexOf(s, p), IndexOf(t, p), id, failed.options, failed.failedReason.value)
            else IndexOf(t, p) == IndexOf(s, p)
  {
    FinishKeeps(s, id, failed, now);
    ReactionKeepsIndex(RetainedState(s, id, failed, now), failed, now, p);
    SettledIndex(s, id, failed, now, p);
    PutIsTold(s, id, failed, p);
  }

  lemma ReactionKeepsIndex(w: QueueState, failed: Job, now: Time, p: JobId)
    requires Core(w) && failed.state == Failed && p in React(w, failed, now).jobs
    ensures p in w.jobs && IndexOf(React(w, failed, now), p) == IndexOf(w, p)
  {
    ReactIsCalm(w, failed, now);
  }

  lemma PutIsTold(s: QueueState, id: JobId, failed: Job, p: JobId)
    requires Core(s) && id in s.jobs && WellFormedJob(id, failed) && failed.state == Failed && failed.failedReason.Some? && p in s.jobs
    requires failed.childIds == s.jobs[id].childIds && failed.lockToken.None? && failed.enqueuedSeq == s.jobs[id].enqueuedSeq
    ensures var index := IndexOf(RecordWithParent(Put(s, id, failed), failed), p);
            if failed.parentId == Some(p) && id in s.jobs[p].childIds
            then IndexIsTold(IndexOf(s, p), index, id, failed.options, failed.failedReason.value)
            else index == IndexOf(s, p)
  {
    PutKeeps(s, id, failed);
    RecordedIsTold(Put(s, id, failed), failed, p);
  }

  /** Retention changes no index of a job that stays. */
  lemma SettledIndex(s: QueueState, id: JobId, failed: Job, now: Time, p: JobId)
    requires Core(s) && id in s.jobs && WellFormedJob(id, failed) && p in RetainedState(s, id, failed, now).jobs
    requires failed.childIds == s.jobs[id].childIds && failed.lockToken.None? && failed.enqueuedSeq == s.jobs[id].enqueuedSeq
    ensures p in s.jobs && IndexOf(RetainedState(s, id, failed, now), p) == IndexOf(RecordWithParent(Put(s, id, failed), failed), p)
  {
    PutKeeps(s, id, failed);
    RecordWithParentIsCalm(Put(s, id, failed), failed);
    RetainFinishedIsCalm(RecordWithParent(Put(s, id, failed), failed), id, failed, now);
  }

  lemma RecordedIsTold(u: QueueState, failed: Job, p: JobId)
    requires Indexes(u) && p in u.jobs && failed.state == Failed && failed.failedReason.Some?
    ensures if failed.parentId == Some(p) && failed.id in u.jobs[p].childIds
            then IndexIsTold(IndexOf(u, p), IndexOf(RecordWithParent(u, failed), p), failed.id, failed.options, failed.failedReason.value)
            else IndexOf(RecordWithParent(u, failed), p) == IndexOf(u, p)
  {
    if failed.parentId.Some? {
      ClearRemovesEveryTrace(u, failed.parentId.value, failed.id);
      if failed.parentId == Some(p) && failed.id in u.jobs[p].childIds {
        EntriesAreTold(IndexOf(u, p), IndexOf(RecordWithParent(u, failed), p), failed.id, failed.options, failed.failedReason.value);
      }
    }
  }

  lemma EntriesAreTold(before: DependencyIndex, after: DependencyIndex, c: JobId, options: JobOptions, error: string)
    requires after == if options.ignoreDependencyOnFailure || options.continueParentOnFailure
                      then DependencyIndex(before.processed - {c}, before.ignored[c := error], before.failed - {c})
                      else if options.failParentOnFailure
                      then DependencyIndex(before.processed - {c}, before.ignored - {c}, before.failed + {c})
                      else if options.removeDependencyOnFailure then before.Erase(c) else before
    ensures IndexIsTold(before, after, c, options, error)
  {
  }
}
