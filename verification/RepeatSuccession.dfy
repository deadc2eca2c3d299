/**
  The successor of a completed repeat job copies the job's deduplication id
  without asking who owns it. This file says, of the state before the
  completion, exactly when owners stay unique.
 */
module RepeatSuccession {
  import opened Ordering
  import opened JobTypes
  import opened QueueModel
  import opened CoreInvariant
  import opened CoreSubmit
  import opened CoreLifecycle
  import opened Operations
  import opened FanIn
  import opened Retention
  import opened DeduplicationOwnership

  // -- Who loses a claim ---------------------------------------------------------------------------

  ghost predicate LeavesByRetention(s: QueueState, state: JobState, retention: Option<JobRetention>, now: Time, x: JobId)
  {
    && retention.Some? && x in Finished(s, state)
    && (AgedOut(s, state, retention.value, now, x) || CrowdedOut(s, state, retention.value, now, x))
  }

  /** The record of `x` goes once `job`, stored under `id`, has ended. */
  ghost predicate Leaves(s: QueueState, id: JobId, job: Job, now: Time, x: JobId)
  {
    if job.state == Completed
    then LeavesUnder(s, id, Completed, job.options.removeOnComplete, job.options.completionRetention, now, x)
    else LeavesUnder(s, id, Failed, job.options.removeOnFail, job.options.failureRetention, now, x)
  }

  /** The ended job `id` is dropped at once, by a flag or a retention of none; else a retention may evict any record of its state. */
  ghost predicate LeavesUnder(s: QueueState, id: JobId, state: JobState, remove: bool, retention: Option<JobRetention>, now: Time, x: JobId)
  {
    if remove || (retention.Some? && retention.value.count == Some(0)) then x == id
    else LeavesByRetention(s, state, retention, now, x)
  }

  /** The waiting parent of `id` fails once `id` has completed: nothing else blocks it, and some child failed without a policy. */
  ghost predicate ParentFails(s: QueueState, id: JobId, uuid: JobId)
  {
    && id in s.jobs && s.jobs[id].parentId.Some?
    && var p := s.jobs[id].parentId.value;
    && p in s.jobs && p != id && s.jobs[p].state == WaitingChildren && uuid !in s.jobs[p].childIds
    && (forall c | c in s.jobs[p].childIds && c in s.jobs && c != id ::
          s.jobs[c].state.IsTerminal() && (s.jobs[c].state == Failed ==> !s.jobs[c].options.failParentOnFailure))
    && exists c :: c in s.jobs[p].childIds && c in s.jobs && c != id && s.jobs[c].state == Failed && !s.jobs[c].options.HasFailurePolicy()
  }

  /** `x` owns nothing any more once `id` has ended as `ended`: it has no record, or a finished one without an expiry. */
  ghost predicate LosesClaim(s: QueueState, id: JobId, ended: Job, now: Time, x: JobId)
  {
    (x == id && ended.deduplicationExpiresAt.None?) || Leaves(Put(s, id, ended), id, ended, now, x)
  }

  /** Completing `id` takes the claim of `x`, directly or by failing the parent. */
  ghost predicate OwnerGoes(s: QueueState, id: JobId, value: Value, uuid: JobId, now: Time, x: JobId)
    requires id in s.jobs
  {
    var completed := CompletedJob(s.jobs[id], value, now);
    || LosesClaim(s, id, completed, now, x)
    || (ParentFails(s, id, uuid)
        && var p := s.jobs[id].parentId.value; LosesClaim(Put(s, id, completed), p, FailedParent(s.jobs[p], "", now), now, x))
  }

  /** If the series continues under a deduplication id, whoever owns that id loses it on the way. */
  ghost predicate SuccessorIsFree(s: QueueState, id: JobId, value: Value, uuid: JobId, cronNext: Option<Time>, now: Time)
  {
    id in s.jobs && DeduplicationId(s.jobs[id]).Some?
    && NextRepeatJob(s.queue, CompletedJob(s.jobs[id], value, now), uuid, cronNext, now).Some?
    ==> forall x | IsDeduplicationOwner(s, x, DeduplicationId(s.jobs[id]).value, now) :: OwnerGoes(s, id, value, uuid, now, x)
  }

  // -- Retention of the end ------------------------------------------------------------------------------

  /** The same records finished in `state`, at the same times. */
  ghost predicate SameEnds(s: QueueState, t: QueueState, state: JobState)
  {
    Finished(t, state) == Finished(s, state) && forall y | y in Finished(s, state) :: t.jobs[y].finishedAt == s.jobs[y].finishedAt
  }

  lemma SameEndsAge(s: QueueState, t: QueueState, state: JobState, retention: JobRetention, now: Time, x: JobId)
    requires SameEnds(s, t, state) && x in Finished(s, state)
    ensures AgedOut(t, state, retention, now, x) <==> AgedOut(s, state, retention, now, x)
  {
    if retention.age.Some? {
      var cutoff := Earlier(now, retention.age.value);
      forall y ensures y in OldEnough(t, state, cutoff) <==> y in OldEnough(s, state, cutoff) {
        assert y in Finished(t, state) <==> y in Finished(s, state);
      }
      assert OldEnough(t, state, cutoff) == OldEnough(s, state, cutoff);
      assert NewerThan(t, OldEnough(s, state, cutoff), x) == NewerThan(s, OldEnough(s, state, cutoff), x);
    }
  }

  lemma SameEndsLeave(s: QueueState, t: QueueState, state: JobState, retention: Option<JobRetention>, now: Time, x: JobId)
    requires SameEnds(s, t, state)
    ensures LeavesByRetention(t, state, retention, now, x) <==> LeavesByRetention(s, state, retention, now, x)
  {
    if retention.Some? && x in Finished(s, state) {
      forall y | y in Finished(s, state) ensures AgedOut(t, state, retention.value, now, y) <==> AgedOut(s, state, retention.value, now, y) {
        SameEndsAge(s, t, state, retention.value, now, y);
      }
      assert NotAgedOut(t, state, retention.value, now) == NotAgedOut(s, state, retention.value, now);
      assert NewerThan(t, NotAgedOut(s, state, retention.value, now), x) == NewerThan(s, NotAgedOut(s, state, retention.value, now), x);
    }
  }

  /** Retaining the end of a job drops exactly the records that leave, and rewrites none. */
  lemma RetainedIff(s: QueueState, id: JobId, job: Job, now: Time, x: JobId)
    requires x in s.jobs && (job.state == Completed || job.state == Failed)
    requires s.jobs[x].state.IsTerminal() ==> s.jobs[x].finishedAt.Some?
    ensures var t := RetainFinished(s, id, job, now);
            && (x !in t.jobs <==> Leaves(s, id, job, now, x))
            && (x in t.jobs ==> t.jobs[x] == s.jobs[x])
  {
    var retention := if job.state == Completed then job.options.CompletedRetention() else job.options.FailedRetention();
    if retention.Some? {
      RetentionTouchesOneState(s, job.state, retention.value, now);
      if x in Finished(s, job.state) { EvictedIff(s, job.state, retention.value, now, x); }
    }
  }

  /** Owners after the end of a job: those before that do not lose their claim. */
  lemma EndedOwners(s: QueueState, u: QueueState, id: JobId, ended: Job, now: Time, x: JobId, d: string)
    requires Core(u) && u == Put(s, id, ended).(flowDependencies := u.flowDependencies) && id in s.jobs
    requires ended.state == Completed || ended.state == Failed
    requires !s.jobs[id].state.IsTerminal() && ended.options == s.jobs[id].options && ended.deduplicationExpiresAt == s.jobs[id].deduplicationExpiresAt
    ensures IsDeduplicationOwner(RetainFinished(u, id, ended, now), x, d, now)
       <==> IsDeduplicationOwner(s, x, d, now) && !LosesClaim(s, id, ended, now, x)
  {
    if x in s.jobs {
      EndedOwner(s, u, id, ended, now, x, d);
    } else {
      RetainFinishedIsCalm(u, id, ended, now);
    }
  }

  lemma EndedOwner(s: QueueState, u: QueueState, id: JobId, ended: Job, now: Time, x: JobId, d: string)
    requires Core(u) && u == Put(s, id, ended).(flowDependencies := u.flowDependencies) && id in s.jobs && x in s.jobs
    requires ended.state == Completed || ended.state == Failed
    requires !s.jobs[id].state.IsTerminal() && ended.options == s.jobs[id].options && ended.deduplicationExpiresAt == s.jobs[id].deduplicationExpiresAt
    ensures IsDeduplicationOwner(RetainFinished(u, id, ended, now), x, d, now)
       <==> IsDeduplicationOwner(s, x, d, now) && !LosesClaim(s, id, ended, now, x)
  {
    RetainFinishedIsCalm(u, id, ended, now);
    RetainedIff(u, id, ended, now, x);
    SameLeave(s, u, id, ended, now, x);
    RetainedOwner(u, RetainFinished(u, id, ended, now), x, d, now);
  }

  /** The index has no say in who leaves. */
  lemma SameLeave(s: QueueState, u: QueueState, id: JobId, ended: Job, now: Time, x: JobId)
    requires u == Put(s, id, ended).(flowDependencies := u.flowDependencies)
    ensures Leaves(u, id, ended, now, x) <==> Leaves(Put(s, id, ended), id, ended, now, x)
  {
    assert SameEnds(u, Put(s, id, ended), Completed) && SameEnds(u, Put(s, id, ended), Failed);
    SameEndsLeave(u, Put(s, id, ended), Completed, ended.options.completionRetention, now, x);
    SameEndsLeave(u, Put(s, id, ended), Failed, ended.options.failureRetention, now, x);
  }

  /** A record that stays as it is keeps or lacks its claim as before. */
  lemma RetainedOwner(u: QueueState, t: QueueState, x: JobId, d: string, now: Time)
    requires Calm(u, t) && x in u.jobs && (x in t.jobs ==> t.jobs[x] == u.jobs[x])
    ensures IsDeduplicationOwner(t, x, d, now) <==> x in t.jobs && IsDeduplicationOwner(u, x, d, now)
  {
  }

  // -- The parent ------------------------------------------------------------------------------------------

  /** `w` is `s` after `id` completed, was retained and was succeeded by `uuid`, if at all. */
  ghost predicate Succeeded(s: QueueState, w: QueueState, id: JobId, uuid: JobId)
  {
    && id in s.jobs && uuid !in s.jobs && !s.jobs[id].state.IsTerminal()
    && (forall x | x in w.jobs && x != id && x != uuid :: x in s.jobs && w.jobs[x] == s.jobs[x])
    && (forall x | x in s.jobs && x != id && s.jobs[x].state != Completed :: x in w.jobs)
    && (id in w.jobs ==> w.jobs[id].state == Completed)
    && (uuid in w.jobs ==> w.jobs[uuid].state == Waiting || w.jobs[uuid].state == Delayed)
  }

  /** The release of the parent fails it exactly when that could be seen beforehand. */
  lemma ReleaseFailsIff(s: QueueState, w: QueueState, id: JobId, uuid: JobId, p: JobId)
    requires Succeeded(s, w, id, uuid) && s.jobs[id].parentId == Some(p) && (uuid in w.jobs || Unlisted(s, uuid))
    ensures ParentFails(s, id, uuid)
       <==> && p in w.jobs && w.jobs[p].state == WaitingChildren
            && var r := ScanChildren(w, w.jobs[p].childIds); r.Ready? && r.deferred.None? && r.failure.Some?
  {
    if p in w.jobs && w.jobs[p].state == WaitingChildren {
      ScanMeaning(w, w.jobs[p].childIds);
      assert p != id && p != uuid && p in s.jobs && w.jobs[p] == s.jobs[p];
      if ParentFails(s, id, uuid) {
        FailingScan(s, w, id, uuid, p);
      } else if ScanChildren(w, w.jobs[p].childIds).Ready? {
        QuietScan(s, w, id, uuid, p);
      }
    }
  }

  lemma FailingScan(s: QueueState, w: QueueState, id: JobId, uuid: JobId, p: JobId)
    requires Succeeded(s, w, id, uuid) && s.jobs[id].parentId == Some(p) && ParentFails(s, id, uuid)
    requires p in w.jobs && w.jobs[p] == s.jobs[p]
    ensures var r := ScanChildren(w, w.jobs[p].childIds); r.Ready? && r.deferred.None? && r.failure.Some?
  {
    var kids := w.jobs[p].childIds;
    ScanMeaning(w, kids);
    forall c | c in kids && c in w.jobs
      ensures w.jobs[c].state.IsTerminal() && (w.jobs[c].state == Failed ==> !w.jobs[c].options.failParentOnFailure) {}
    var c :| c in kids && c in s.jobs && c != id && s.jobs[c].state == Failed && !s.jobs[c].options.HasFailurePolicy();
    assert c in w.jobs && w.jobs[c] == s.jobs[c];
  }

  lemma QuietScan(s: QueueState, w: QueueState, id: JobId, uuid: JobId, p: JobId)
    requires Succeeded(s, w, id, uuid) && s.jobs[id].parentId == Some(p) && !ParentFails(s, id, uuid)
    requires p in w.jobs && p in s.jobs && p != id && w.jobs[p] == s.jobs[p] && w.jobs[p].state == WaitingChildren
    requires ScanChildren(w, w.jobs[p].childIds).Ready? && (uuid in w.jobs || Unlisted(s, uuid))
    ensures var r := ScanChildren(w, w.jobs[p].childIds); r.deferred.Some? || r.failure.None?
  {
    var kids := w.jobs[p].childIds;
    ScanMeaning(w, kids);
    forall c | c in kids && c in w.jobs ensures w.jobs[c].state.IsTerminal() {}
    assert uuid !in kids;
    forall c | c in kids && c in s.jobs && c != id ensures s.jobs[c].state.IsTerminal() {
      if s.jobs[c].state != Completed { assert c in w.jobs; }
    }
    if forall c | c in kids && c in s.jobs && c != id && s.jobs[c].state == Failed :: !s.jobs[c].options.failParentOnFailure {
      forall c | c in kids && c in w.jobs && w.jobs[c].state == Failed ensures w.jobs[c].options.HasFailurePolicy() {}
    } else {
      var c :| c in kids && c in s.jobs && c != id && s.jobs[c].state == Failed && s.jobs[c].options.failParentOnFailure;
      assert c in w.jobs && w.jobs[c] == s.jobs[c];
    }
  }

  /** A parent that resumes, or stays where it is, keeps every owner. */
  lemma ResumedOwners(s: QueueState, p: JobId, deferred: Option<JobId>, now: Time, x: JobId, d: string)
    requires p in s.jobs && !s.jobs[p].state.IsTerminal()
    ensures IsDeduplicationOwner(PutInOrder(s, p, Resumed(s.jobs[p], deferred, now)), x, d, now) <==> IsDeduplicationOwner(s, x, d, now)
  {
  }

  /** Failing the parent takes the claims that could be foreseen. */
  lemma FailedParentOwners(s: QueueState, w: QueueState, id: JobId, completed: Job, uuid: JobId, p: JobId, reason: string, now: Time, x: JobId, d: string)
    requires Core(w) && Succeeded(s, w, id, uuid) && completed.state == Completed && p != id && p != uuid && p in w.jobs && w.jobs[p].state == WaitingChildren
    ensures IsDeduplicationOwner(FailParent(w, p, reason, now), x, d, now)
       <==> IsDeduplicationOwner(w, x, d, now) && !LosesClaim(Put(s, id, completed), p, FailedParent(s.jobs[p], "", now), now, x)
  {
    var failed := FailedParent(w.jobs[p], reason, now);
    assert WellFormedJob(p, w.jobs[p]);
    PutKeeps(w, p, failed);
    EndedOwners(w, Put(w, p, failed), p, failed, now, x, d);
    ForeseenFailure(s, w, id, completed, uuid, p, reason, now, x);
  }

  /** The failure takes the same claims, seen from before the completion. */
  lemma ForeseenFailure(s: QueueState, w: QueueState, id: JobId, completed: Job, uuid: JobId, p: JobId, reason: string, now: Time, x: JobId)
    requires Succeeded(s, w, id, uuid) && completed.state == Completed && p != id && p != uuid && p in w.jobs
    ensures LosesClaim(w, p, FailedParent(w.jobs[p], reason, now), now, x)
       <==> LosesClaim(Put(s, id, completed), p, FailedParent(s.jobs[p], "", now), now, x)
  {
    var failed, seen := FailedParent(w.jobs[p], reason, now), FailedParent(s.jobs[p], "", now);
    ForeseenEnds(s, w, id, completed, uuid, p, failed, seen);
    SameEndsLeave(Put(w, p, failed), Put(Put(s, id, completed), p, seen), Failed, failed.options.failureRetention, now, x);
  }

  lemma ForeseenEnds(s: QueueState, w: QueueState, id: JobId, completed: Job, uuid: JobId, p: JobId, failed: Job, seen: Job)
    requires Succeeded(s, w, id, uuid) && completed.state == Completed && p != id && p != uuid && p in w.jobs
    requires failed.state == Failed && seen.state == Failed && seen.finishedAt == failed.finishedAt
    ensures SameEnds(Put(w, p, failed), Put(Put(s, id, completed), p, seen), Failed)
  {
    var a, b := Put(w, p, failed), Put(Put(s, id, completed), p, seen);
    forall y ensures y in Finished(a, Failed) <==> y in Finished(b, Failed) {}
  }

  /** Owners after the release of the parent. */
  lemma ReleasedOwners(s: QueueState, w: QueueState, id: JobId, completed: Job, uuid: JobId, p: JobId, now: Time, x: JobId, d: string)
    requires Core(w) && Succeeded(s, w, id, uuid) && completed.state == Completed && s.jobs[id].parentId == Some(p) && uuid in w.jobs
    ensures IsDeduplicationOwner(ReleaseParent(w, p, now), x, d, now)
       <==> IsDeduplicationOwner(w, x, d, now)
            && !(ParentFails(s, id, uuid) && LosesClaim(Put(s, id, completed), p, FailedParent(s.jobs[p], "", now), now, x))
  {
    ReleaseFailsIff(s, w, id, uuid, p);
    if p in w.jobs && w.jobs[p].state == WaitingChildren {
      match ScanChildren(w, w.jobs[p].childIds)
      case Blocked =>
      case Ready(Some(c), _) => ResumedOwners(w, p, Some(c), now, x, d);
      case Ready(None, Some(c)) =>
        FailedParentOwners(s, w, id, completed, uuid, p, ChildFailureReason(c, if c in w.jobs then w.jobs[c].failedReason else None), now, x, d);
      case Ready(None, None) => ResumedOwners(w, p, None, now, x, d);
    }
  }

  // -- Completion -------------------------------------------------------------------------------------------

  /** A successor owns the deduplication id of its predecessor from the start. */
  lemma SuccessorOwns(queue: string, job: Job, uuid: JobId, cronNext: Option<Time>, now: Time)
    requires job.options.Valid() && NextRepeatJob(queue, job, uuid, cronNext, now).Some?
    ensures ActiveDeduplicationId(NextRepeatJob(queue, job, uuid, cronNext, now).value, now) == DeduplicationId(job)
  {
  }

  /** The record of the completed job, indexed and retained. */
  ghost function RetainedState(s: QueueState, id: JobId, completed: Job, now: Time): QueueState
  {
    RetainFinished(RecordWithParent(Put(s, id, completed), completed), id, completed, now)
  }

  lemma CompletedKeeps(s: QueueState, id: JobId, value: Value, now: Time)
    requires Core(s) && id in s.jobs && s.jobs[id].state == Active
    ensures var t := RetainedState(s, id, CompletedJob(s.jobs[id], value, now), now);
            Core(t) && t.jobs.Keys <= s.jobs.Keys && NoNewOwners(s, t, now)
  {
    var completed := CompletedJob(s.jobs[id], value, now);
    assert WellFormedJob(id, s.jobs[id]);
    FinishKeeps(s, id, completed, now);
    FinishOwnsNothingNew(s, id, completed, now);
  }

  /** What the completion of a leased job leaves, before anybody succeeds it. */
  lemma CompletedFrame(s: QueueState, id: JobId, completed: Job, now: Time)
    requires id in s.jobs && completed.state == Completed
    ensures var t := RetainedState(s, id, completed, now);
            && (forall x | x in t.jobs && x != id :: x in s.jobs && t.jobs[x] == s.jobs[x])
            && (forall x | x in s.jobs && x != id && s.jobs[x].state != Completed :: x in t.jobs)
            && (id in t.jobs ==> t.jobs[id] == completed)
  {
    RecordTouchesNoJob(Put(s, id, completed), completed);
    RetainedFrame(s, RecordWithParent(Put(s, id, completed), completed), id, completed, now);
  }

  /** Retaining a completed job touches no record of another state. */
  lemma RetainedFrame(s: QueueState, u: QueueState, id: JobId, completed: Job, now: Time)
    requires completed.state == Completed && id in u.jobs && u.jobs[id] == completed
    ensures var t := RetainFinished(u, id, completed, now);
            && (forall x | x in t.jobs :: x in u.jobs && t.jobs[x] == u.jobs[x])
            && (forall x | x in u.jobs && u.jobs[x].state != Completed :: x in t.jobs)
  {
    if completed.options.CompletedRetention().Some? {
      RetentionTouchesOneState(u, Completed, completed.options.CompletedRetention().value, now);
    }
  }

  /** Who owns `d` after the completion: the successor, if any, and whoever does not lose the claim. */
  lemma CompletionOwners(s: QueueState, id: JobId, token: Token, value: Value, uuid: JobId, cronNext: Option<Time>, now: Time, x: JobId, d: string)
    requires Core(s) && uuid != "" && uuid !in s.jobs && x != uuid
    requires Complete(s, id, token, value, uuid, cronNext, now).reply.Ok?
    requires NextRepeatJob(s.queue, CompletedJob(s.jobs[id], value, now), uuid, cronNext, now).Some?
    ensures IsDeduplicationOwner(Complete(s, id, token, value, uuid, cronNext, now).state, x, d, now)
       <==> IsDeduplicationOwner(s, x, d, now) && !OwnerGoes(s, id, value, uuid, now, x)
  {
    var completed := CompletedJob(s.jobs[id], value, now);
    var u := RecordWithParent(Put(s, id, completed), completed);
    RecordTouchesNoJob(Put(s, id, completed), completed);
    CompletedKeeps(s, id, value, now);
    CompletedFrame(s, id, completed, now);
    RecordedIsCore(s, id, value, now);
    EndedOwners(s, u, id, completed, now, x, d);
    var t := RetainedState(s, id, completed, now);
    var next := NextRepeatJob(s.queue, completed, uuid, cronNext, now).value;
    assert WellFormedJob(id, s.jobs[id]);
    SuccessorStored(s, t, id, completed, uuid, cronNext, now);
    var w := Insert(t, next);
    InsertedOwner(t, next, x, d, now);
    if completed.parentId.Some? { ReleasedOwners(s, w, id, completed, uuid, completed.parentId.value, now, x, d); }
  }

  /** Storing a job leaves the claims of the others. */
  lemma InsertedOwner(s: QueueState, job: Job, x: JobId, d: string, now: Time)
    requires x != job.id
    ensures IsDeduplicationOwner(Insert(s, job), x, d, now) <==> IsDeduplicationOwner(s, x, d, now)
  {
  }

  lemma RecordedIsCore(s: QueueState, id: JobId, value: Value, now: Time)
    requires Core(s) && id in s.jobs && s.jobs[id].state == Active
    ensures var completed := CompletedJob(s.jobs[id], value, now); Core(RecordWithParent(Put(s, id, completed), completed))
  {
    var completed := CompletedJob(s.jobs[id], value, now);
    assert WellFormedJob(id, s.jobs[id]);
    PutKeeps(s, id, completed);
    RecordWithParentIsCalm(Put(s, id, completed), completed);
  }

  lemma SuccessorStored(s: QueueState, t: QueueState, id: JobId, completed: Job, uuid: JobId, cronNext: Option<Time>, now: Time)
    requires Core(t) && t.jobs.Keys <= s.jobs.Keys && uuid != "" && uuid !in s.jobs && id in s.jobs && s.jobs[id].state == Active
    requires completed.state == Completed && WellFormedJob(id, completed)
    requires forall x | x in t.jobs && x != id :: t.jobs[x] == s.jobs[x]
    requires forall x | x in s.jobs && x != id && s.jobs[x].state != Completed :: x in t.jobs
    requires id in t.jobs ==> t.jobs[id] == completed
    requires NextRepeatJob(s.queue, completed, uuid, cronNext, now).Some?
    ensures var w := Insert(t, NextRepeatJob(s.queue, completed, uuid, cronNext, now).value);
            Core(w) && Succeeded(s, w, id, uuid) && uuid in w.jobs
  {
    var next := NextRepeatJob(s.queue, completed, uuid, cronNext, now).value;
    NextRepeatJobIsNew(s.queue, completed, uuid, cronNext, now);
    InsertKeeps(t, next);
    InsertStores(t, next);
    AddedSucceeds(s, t, Insert(t, next), id, completed, uuid);
  }

  lemma AddedSucceeds(s: QueueState, t: QueueState, w: QueueState, id: JobId, completed: Job, uuid: JobId)
    requires t.jobs.Keys <= s.jobs.Keys && uuid !in s.jobs && id in s.jobs && s.jobs[id].state == Active && completed.state == Completed
    requires forall x | x in t.jobs && x != id :: t.jobs[x] == s.jobs[x]
    requires forall x | x in s.jobs && x != id && s.jobs[x].state != Completed :: x in t.jobs
    requires id in t.jobs ==> t.jobs[id] == completed
    requires uuid in w.jobs && w.jobs == t.jobs[uuid := w.jobs[uuid]] && (w.jobs[uuid].state == Waiting || w.jobs[uuid].state == Delayed)
    ensures Succeeded(s, w, id, uuid)
  {
  }

  lemma SuccessorStaysOwner(s: QueueState, w: QueueState, id: JobId, completed: Job, uuid: JobId, p: JobId, now: Time, d: string)
    requires Core(w) && Succeeded(s, w, id, uuid) && completed.state == Completed && s.jobs[id].parentId == Some(p) && uuid in w.jobs
    requires uuid !in s.jobs && IsDeduplicationOwner(w, uuid, d, now)
    ensures IsDeduplicationOwner(ReleaseParent(w, p, now), uuid, d, now)
  {
    ReleasedOwners(s, w, id, completed, uuid, p, now, uuid, d);
    if ParentFails(s, id, uuid) { StrangerStays(s, id, completed, p, now, uuid); }
  }

  lemma InsertedOwns(t: QueueState, next: Job, d: string, now: Time)
    requires ActiveDeduplicationId(next, now) == Some(d)
    ensures IsDeduplicationOwner(Insert(t, next), next.id, d, now)
  {
  }

  /** Once stored, the successor owns the id. */
  lemma SuccessorOwnsOnceStored(s: QueueState, id: JobId, value: Value, uuid: JobId, cronNext: Option<Time>, now: Time)
    requires Core(s) && uuid != "" && uuid !in s.jobs && id in s.jobs && s.jobs[id].state == Active && DeduplicationId(s.jobs[id]).Some?
    requires NextRepeatJob(s.queue, CompletedJob(s.jobs[id], value, now), uuid, cronNext, now).Some?
    ensures var completed := CompletedJob(s.jobs[id], value, now);
            var w := Insert(RetainedState(s, id, completed, now), NextRepeatJob(s.queue, completed, uuid, cronNext, now).value);
            && Core(w) && Succeeded(s, w, id, uuid) && uuid in w.jobs
            && IsDeduplicationOwner(w, uuid, DeduplicationId(s.jobs[id]).value, now)
  {
    var completed := CompletedJob(s.jobs[id], value, now);
    assert WellFormedJob(id, s.jobs[id]);
    CompletedKeeps(s, id, value, now);
    CompletedFrame(s, id, completed, now);
    SuccessorStored(s, RetainedState(s, id, completed, now), id, completed, uuid, cronNext, now);
    SuccessorOwns(s.queue, completed, uuid, cronNext, now);
    NextRepeatJobIsNew(s.queue, completed, uuid, cronNext, now);
    InsertedOwns(RetainedState(s, id, completed, now), NextRepeatJob(s.queue, completed, uuid, cronNext, now).value, DeduplicationId(completed).value, now);
  }

  /** The successor ends up owning the id it copied. */
  lemma SuccessorEndsOwning(s: QueueState, id: JobId, token: Token, value: Value, uuid: JobId, cronNext: Option<Time>, now: Time)
    requires Core(s) && uuid != "" && uuid !in s.jobs
    requires Complete(s, id, token, value, uuid, cronNext, now).reply.Ok? && DeduplicationId(s.jobs[id]).Some?
    requires NextRepeatJob(s.queue, CompletedJob(s.jobs[id], value, now), uuid, cronNext, now).Some?
    ensures IsDeduplicationOwner(Complete(s, id, token, value, uuid, cronNext, now).state, uuid, DeduplicationId(s.jobs[id]).value, now)
  {
    SuccessorOwnsOnceStored(s, id, value, uuid, cronNext, now);
    var completed := CompletedJob(s.jobs[id], value, now);
    var w := Insert(RetainedState(s, id, completed, now), NextRepeatJob(s.queue, completed, uuid, cronNext, now).value);
    if completed.parentId.Some? {
      SuccessorStaysOwner(s, w, id, completed, uuid, completed.parentId.value, now, DeduplicationId(s.jobs[id]).value);
    }
  }

  /** A job that is not stored has no claim to lose. */
  lemma StrangerStays(s: QueueState, id: JobId, completed: Job, p: JobId, now: Time, uuid: JobId)
    requires uuid !in s.jobs && id in s.jobs && p in s.jobs
    ensures !LosesClaim(Put(s, id, completed), p, FailedParent(s.jobs[p], "", now), now, uuid)
  {
  }

  /** Without a successor nobody comes to own anything. */
  lemma UnsucceededOwnsNothingNew(s: QueueState, id: JobId, token: Token, value: Value, uuid: JobId, cronNext: Option<Time>, now: Time)
    requires Core(s) && UniqueOwners(s, now) && Complete(s, id, token, value, uuid, cronNext, now).reply.Ok?
    requires NextRepeatJob(s.queue, CompletedJob(s.jobs[id], value, now), uuid, cronNext, now).None?
    ensures UniqueOwners(Complete(s, id, token, value, uuid, cronNext, now).state, now)
  {
    var completed := CompletedJob(s.jobs[id], value, now);
    CompletedKeeps(s, id, value, now);
    var t := RetainedState(s, id, completed, now);
    NoNewKeepsUnique(s, t, now);
    if completed.parentId.Some? { ReleaseKeepsUnique(t, completed.parentId.value, now); }
  }

  /** A successor without a deduplication id owns nothing either. */
  lemma UndeduplicatedKeepsUnique(s: QueueState, id: JobId, token: Token, value: Value, uuid: JobId, cronNext: Option<Time>, now: Time)
    requires Core(s) && UniqueOwners(s, now) && uuid != "" && uuid !in s.jobs && Complete(s, id, token, value, uuid, cronNext, now).reply.Ok?
    requires NextRepeatJob(s.queue, CompletedJob(s.jobs[id], value, now), uuid, cronNext, now).Some? && DeduplicationId(s.jobs[id]).None?
    ensures UniqueOwners(Complete(s, id, token, value, uuid, cronNext, now).state, now)
  {
    var completed := CompletedJob(s.jobs[id], value, now);
    assert WellFormedJob(id, s.jobs[id]);
    CompletedKeeps(s, id, value, now);
    CompletedFrame(s, id, completed, now);
    var t := RetainedState(s, id, completed, now);
    NoNewKeepsUnique(s, t, now);
    SuccessorStored(s, t, id, completed, uuid, cronNext, now);
    var next := NextRepeatJob(s.queue, completed, uuid, cronNext, now).value;
    SuccessorOwns(s.queue, completed, uuid, cronNext, now);
    InsertKeepsUniqueIff(t, next, now);
    if completed.parentId.Some? { ReleaseKeepsUnique(Insert(t, next), completed.parentId.value, now); }
  }

  /**
    Completing a job keeps owners unique if and only if, seen from the state
    before, the successor's deduplication id is free once the completion has
    taken its course.
   */
  lemma CompletionKeepsUniqueIff(s: QueueState, id: JobId, token: Token, value: Value, uuid: JobId, cronNext: Option<Time>, now: Time)
    requires Core(s) && UniqueOwners(s, now) && uuid != "" && uuid !in s.jobs
    requires Complete(s, id, token, value, uuid, cronNext, now).reply.Ok?
    ensures UniqueOwners(Complete(s, id, token, value, uuid, cronNext, now).state, now)
       <==> SuccessorIsFree(s, id, value, uuid, cronNext, now)
  {
    if NextRepeatJob(s.queue, CompletedJob(s.jobs[id], value, now), uuid, cronNext, now).None? {
      UnsucceededOwnsNothingNew(s, id, token, value, uuid, cronNext, now);
    } else if DeduplicationId(s.jobs[id]).None? {
      UndeduplicatedKeepsUnique(s, id, token, value, uuid, cronNext, now);
    } else {
      var t := Complete(s, id, token, value, uuid, cronNext, now).state;
      var d := DeduplicationId(s.jobs[id]).value;
      SuccessorEndsOwning(s, id, token, value, uuid, cronNext, now);
      forall x, e | x != uuid
        ensures IsDeduplicationOwner(t, x, e, now) <==> IsDeduplicationOwner(s, x, e, now) && !OwnerGoes(s, id, value, uuid, now, x)
      {
        CompletionOwners(s, id, token, value, uuid, cronNext, now, x, e);
      }
      SharedIff(s, t, id, value, uuid, now, d);
    }
  }

  lemma SharedIff(s: QueueState, t: QueueState, id: JobId, value: Value, uuid: JobId, now: Time, d: string)
    requires UniqueOwners(s, now) && uuid !in s.jobs && id in s.jobs && IsDeduplicationOwner(t, uuid, d, now)
    requires forall x, e | x != uuid ::
               IsDeduplicationOwner(t, x, e, now) <==> IsDeduplicationOwner(s, x, e, now) && !OwnerGoes(s, id, value, uuid, now, x)
    ensures UniqueOwners(t, now) <==> forall x | IsDeduplicationOwner(s, x, d, now) :: OwnerGoes(s, id, value, uuid, now, x)
  {
  }
}
