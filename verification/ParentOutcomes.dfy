/**
  What a parent's record says after its children ended: whether it runs again,
  with which failure to report, or fails, and for which reason. Everything is
  read off the fields of the records before and after.
 */
module ParentOutcomes {
  import opened Ordering
  import opened JobTypes
  import opened QueueModel
  import opened CoreInvariant
  import opened FanIn

  // -- Records --------------------------------------------------------------------------------

  predicate IsUnleased(job: Job) { job.workerId.None? && job.lockToken.None? && job.leaseExpiresAt.None? }

  /** What was submitted, and what was counted so far, is still the same. */
  predicate SameWork(before: Job, after: Job)
  {
    && after.id == before.id && after.name == before.name && after.options == before.options && after.priority == before.priority
    && after.createdAt == before.createdAt && after.scheduledAt == before.scheduledAt
    && after.attemptsMade == before.attemptsMade && after.stalledCount == before.stalledCount
    && after.parentId == before.parentId && after.childIds == before.childIds
    && after.repeatKey == before.repeatKey && after.repeatCount == before.repeatCount
    && after.deduplicationExpiresAt == before.deduplicationExpiresAt
  }

  /** The job may be claimed once its schedule allows, and then has `failure` to report. */
  predicate RunsAgain(before: Job, after: Job, failure: Option<JobId>, now: Time)
  {
    && SameWork(before, after) && IsUnleased(after)
    && after.state == (if before.scheduledAt > now then Delayed else Waiting)
    && after.deferredFailure == failure && after.failedReason.None?
    && after.processedAt.None? && after.finishedAt.None? && after.returnValue == before.returnValue
  }

  /** The job failed at `now`, for `reason`. */
  predicate FailedFor(before: Job, after: Job, reason: string, now: Time)
  {
    && SameWork(before, after) && IsUnleased(after)
    && after.state == Failed && after.finishedAt == Some(now) && after.failedReason == Some(reason)
    && after.deferredFailure.None?
  }

  /** Neither dropped when it fails nor subject to a retention of failures. */
  predicate KeepsFailure(job: Job) { !job.options.removeOnFail && job.options.failureRetention.None? }

  predicate IsLiveJob(s: QueueState, x: JobId) { x in s.jobs && !s.jobs[x].state.IsTerminal() }

  /** Queued behind everything that was queued before. */
  predicate BehindAll(s: QueueState, job: Job) { job.state == Waiting ==> job.enqueuedSeq > s.sequence }

  // -- Children that decide --------------------------------------------------------------------

  ghost function Unfinished(s: QueueState): set<JobId>
  {
    set c | c in s.jobs && s.jobs[c].state != Completed && s.jobs[c].state != Failed
  }

  /** Failed children whose failure their parent reports. */
  ghost function Fatal(s: QueueState): set<JobId>
  {
    set c | c in s.jobs && s.jobs[c].state == Failed && s.jobs[c].options.failParentOnFailure
  }

  /** Failed children without any policy. */
  ghost function Damning(s: QueueState): set<JobId>
  {
    set c | c in s.jobs && s.jobs[c].state == Failed && !s.jobs[c].options.failParentOnFailure
            && !s.jobs[c].options.ignoreDependencyOnFailure && !s.jobs[c].options.removeDependencyOnFailure
            && !s.jobs[c].options.continueParentOnFailure
  }

  /** `who` is the last of `ids` in `kind`, if any is. */
  ghost predicate LastOf(ids: seq<JobId>, kind: set<JobId>, who: Option<JobId>)
  {
    match who
    case None => forall c | c in ids :: c !in kind
    case Some(x) => x in kind && exists k :: 0 <= k < |ids| && ids[k] == x && forall j | k < j < |ids| :: ids[j] !in kind
  }

  lemma LastOfMore(ids: seq<JobId>, kind: set<JobId>, who: Option<JobId>, id: JobId)
    requires LastOf(ids, kind, who)
    ensures LastOf(ids + [id], kind, if id in kind then Some(id) else who)
  {
    var more := ids + [id];
    if id in kind {
      assert more[|ids|] == id;
    } else if who.Some? {
      var k :| 0 <= k < |ids| && ids[k] == who.value && forall j | k < j < |ids| :: ids[j] !in kind;
      assert more[k] == who.value && forall j | k < j < |more| :: more[j] !in kind;
    }
  }

  /** A finished scan found no unfinished child, and points at the last child of each kind. */
  ghost predicate ScanPoints(s: QueueState, ids: seq<JobId>, r: Readiness)
  {
    && (r.Ready? <==> forall c | c in ids :: c !in Unfinished(s))
    && (r.Ready? ==> LastOf(ids, Fatal(s), r.deferred) && LastOf(ids, Damning(s), r.failure))
  }

  lemma ScanPointsNext(s: QueueState, ids: seq<JobId>, earlier: Readiness, id: JobId)
    requires ScanPoints(s, ids, earlier)
    ensures ScanPoints(s, ids + [id], ScanNext(s, earlier, id))
  {
    if earlier.Ready? {
      LastOfMore(ids, Fatal(s), earlier.deferred, id);
      LastOfMore(ids, Damning(s), earlier.failure, id);
      assert id in ids + [id];
    } else {
      var c :| c in ids && c in Unfinished(s);
      assert c in ids + [id];
    }
  }

  lemma {:induction false} ScanNames(s: QueueState, ids: seq<JobId>)
    ensures ScanPoints(s, ids, ScanChildren(s, ids))
    decreases |ids|
  {
    if ids != [] {
      var n := |ids| - 1;
      ScanNames(s, ids[..n]);
      ScanPointsNext(s, ids[..n], ScanChildren(s, ids[..n]), ids[n]);
      assert ids == ids[..n] + [ids[n]];
    }
  }

  // -- One parent -----------------------------------------------------------------------------------

  lemma ResumedRuns(s: QueueState, p: JobId, failure: Option<JobId>, now: Time)
    requires p in s.jobs
    ensures var t := PutInOrder(s, p, Resumed(s.jobs[p], failure, now));
            && p in t.jobs && t.jobs == s.jobs[p := t.jobs[p]]
            && RunsAgain(s.jobs[p], t.jobs[p], failure, now) && BehindAll(s, t.jobs[p])
  {
    PutInOrderStores(s, p, Resumed(s.jobs[p], failure, now));
  }

  lemma FailedParentSays(s: QueueState, p: JobId, reason: string, now: Time)
    requires p in s.jobs && !s.jobs[p].state.IsTerminal()
    ensures var t := FailParent(s, p, reason, now);
            && !IsLiveJob(t, p) && (KeepsFailure(s.jobs[p]) ==> p in t.jobs)
            && (p in t.jobs ==> FailedFor(s.jobs[p], t.jobs[p], reason, now))
            && forall x | IsLiveJob(s, x) && x != p :: x in t.jobs && t.jobs[x] == s.jobs[x]
  {
    FailParentFrame(s, p, reason, now);
    RetainedSame(Put(s, p, FailedParent(s.jobs[p], reason, now)), p, FailedParent(s.jobs[p], reason, now), now);
  }

  /**
    The release of a parked parent. It stays while a listed child is unfinished.
    Otherwise it runs again with the last listed fail-parent failure to report,
    if there is one; else it fails for the last failure without a policy, if
    there is one; else it runs again with nothing to report.
   */
  lemma ReleaseDecides(s: QueueState, p: JobId, now: Time)
    requires IsParked(s, p)
    ensures ReleaseSays(s, ReleaseParent(s, p, now), p, now)
    ensures forall x | IsLiveJob(s, x) && x != p :: x in ReleaseParent(s, p, now).jobs && ReleaseParent(s, p, now).jobs[x] == s.jobs[x]
  {
    ScanNames(s, s.jobs[p].childIds);
    match ScanChildren(s, s.jobs[p].childIds)
    case Blocked =>
    case Ready(Some(c), _) => ResumedRuns(s, p, Some(c), now);
    case Ready(None, Some(c)) => FailedParentSays(s, p, ChildFailureReason(c, s.jobs[c].failedReason), now);
    case Ready(None, None) => ResumedRuns(s, p, None, now);
  }

  /** What the release of `p` in state `s` leads to. */
  ghost predicate ReleaseSays(s: QueueState, t: QueueState, p: JobId, now: Time)
    requires p in s.jobs
  {
    var ids := s.jobs[p].childIds;
    if exists c :: c in ids && c in Unfinished(s) then t == s
    else if exists c :: c in ids && c in Fatal(s) then ReportsTheLast(s, t, p, now)
    else if exists c :: c in ids && c in Damning(s) then FailsForTheLast(s, t, p, now)
    else p in t.jobs && RunsAgain(s.jobs[p], t.jobs[p], None, now) && BehindAll(s, t.jobs[p])
  }

  /** `p` runs again and reports the last of its listed children whose failure it has to report. */
  ghost predicate ReportsTheLast(s: QueueState, t: QueueState, p: JobId, now: Time)
    requires p in s.jobs
  {
    && p in t.jobs && RunsAgain(s.jobs[p], t.jobs[p], t.jobs[p].deferredFailure, now) && BehindAll(s, t.jobs[p])
    && t.jobs[p].deferredFailure.Some? && LastOf(s.jobs[p].childIds, Fatal(s), t.jobs[p].deferredFailure)
  }

  /** `p` failed, and may be gone already, for the last of its listed children that failed without a policy. */
  ghost predicate FailsForTheLast(s: QueueState, t: QueueState, p: JobId, now: Time)
    requires p in s.jobs
  {
    && !IsLiveJob(t, p) && (KeepsFailure(s.jobs[p]) ==> p in t.jobs)
    && (p in t.jobs ==>
          exists c :: c in s.jobs && LastOf(s.jobs[p].childIds, Damning(s), Some(c))
                      && FailedFor(s.jobs[p], t.jobs[p], BecauseOf(c, s.jobs[c].failedReason), now))
  }

  /** The reason a parent gives for failing because of a child. */
  function BecauseOf(c: JobId, reason: Option<string>): string
  {
    "child job " + c + " failed: " + (match reason case Some(text) => text case None => "unknown error")
  }
}
