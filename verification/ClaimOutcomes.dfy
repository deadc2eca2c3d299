/**
  Which job a claim takes and what its record then says, and what the holder of
  a lease may do with it short of ending the job, read off the fields of the
  records before and after.
 */
module ClaimOutcomes {
  import opened Ordering
  import opened JobTypes
  import opened QueueModel
  import opened CoreInvariant
  import opened CoreLifecycle
  import opened Operations
  import opened ClaimOrder
  import opened ParentOutcomes

  // -- The order, field by field ------------------------------------------------------------------

  /** Byte order: the first difference decides, and a prefix comes first. */
  predicate ByteLess(a: JobId, b: JobId)
  {
    exists k | 0 <= k <= |a| :: k < |b| && a[..k] == b[..k] && (k == |a| || a[k] < b[k])
  }

  lemma PrefixesShareTheHead(a: JobId, b: JobId, k: nat)
    requires 0 < k <= |a| && k <= |b| && a[..k] == b[..k]
    ensures a[0] == b[0]
  {
    assert a[..k][0] == a[0] && b[..k][0] == b[0];
  }

  lemma FirstByteDecides(a: JobId, b: JobId)
    requires a != [] && b != [] && a[0] != b[0] && ByteLess(a, b)
    ensures a[0] < b[0]
  {
    var k :| 0 <= k <= |a| && k < |b| && a[..k] == b[..k] && (k == |a| || a[k] < b[k]);
    if k > 0 { PrefixesShareTheHead(a, b, k); }
  }

  lemma {:induction false} IdLessIsByteLess(a: JobId, b: JobId)
    ensures IdLess(a, b) <==> ByteLess(a, b)
    decreases |a|
  {
    if a == [] && b != [] {
      assert a[..0] == b[..0];
    } else if a != [] && b != [] {
      IdLessIsByteLess(a[1..], b[1..]);
      if a[0] == b[0] {
        if ByteLess(a[1..], b[1..]) {
          var k :| 0 <= k <= |a[1..]| && k < |b[1..]| && a[1..][..k] == b[1..][..k] && (k == |a[1..]| || a[1..][k] < b[1..][k]);
          assert a[..k + 1] == [a[0]] + a[1..][..k] && b[..k + 1] == [b[0]] + b[1..][..k];
        }
        if ByteLess(a, b) {
          var k :| 0 <= k <= |a| && k < |b| && a[..k] == b[..k] && (k == |a| || a[k] < b[k]);
          assert k > 0;
          assert a[1..][..k - 1] == a[..k][1..] && b[1..][..k - 1] == b[..k][1..];
        }
      } else {
        assert a[..0] == b[..0];
        if ByteLess(a, b) { FirstByteDecides(a, b); }
      }
    }
  }

  /** Of two jobs queued with the same priority, `a` goes first: given back, then last in first out, then first in first out. */
  predicate QueuedFirst(a: Job, b: Job)
  {
    if a.enqueuedSeq == 0 && b.enqueuedSeq == 0 then ByteLess(a.id, b.id)
    else if a.enqueuedSeq == 0 || b.enqueuedSeq == 0 then a.enqueuedSeq == 0
    else if a.options.lifo != b.options.lifo then a.options.lifo
    else if a.options.lifo then a.enqueuedSeq > b.enqueuedSeq
    else a.enqueuedSeq < b.enqueuedSeq
  }

  /** The lower priority number goes first. */
  predicate GoesFirst(a: Job, b: Job)
  {
    a.priority < b.priority || (a.priority == b.priority && QueuedFirst(a, b))
  }

  /** Distinct jobs of a reachable queue never share a positive sequence, so nothing else is ever compared. */
  lemma ClaimOrderMeans(s: QueueState, a: JobId, b: JobId)
    requires Core(s) && a in s.jobs && b in s.jobs && a != b
    ensures CompareClaimOrder(s.jobs[a], s.jobs[b]) == Less <==> GoesFirst(s.jobs[a], s.jobs[b])
  {
    assert WellFormedJob(a, s.jobs[a]) && WellFormedJob(b, s.jobs[b]);
    IdLessIsByteLess(a, b);
    IdTrichotomy(a, b);
  }

  // -- Claiming ---------------------------------------------------------------------------------------

  predicate IsDue(job: Job, now: Time) { job.state == Delayed && job.scheduledAt <= now }

  /** The worker's copy of the job: leased, one attempt up, with any failure it has to report. */
  predicate LeasedTo(before: Job, after: Job, worker: string, token: Token, until: Time, now: Time)
  {
    && SameWork(before.(attemptsMade := before.attemptsMade + 1), after)
    && after.state == Active && after.workerId == Some(worker) && after.lockToken == Some(token) && after.leaseExpiresAt == Some(until)
    && after.processedAt == Some(now) && after.failedReason.None? && after.deferredFailure == before.deferredFailure
    && after.finishedAt == before.finishedAt && after.returnValue == before.returnValue
  }

  /** A job that fell due is queued, every other is as it was. */
  predicate AfterPromotion(s: QueueState, before: Job, after: Job, now: Time)
  {
    if IsDue(before, now)
    then after == before.(state := Waiting, enqueuedSeq := after.enqueuedSeq) && after.enqueuedSeq > s.sequence
    else after == before
  }

  lemma DueMeans(s: QueueState, now: Time, id: JobId)
    ensures id in DueRanks(s, now) <==> id in s.jobs && IsDue(s.jobs[id], now)
  {
  }

  lemma PromotionQueuesTheDue(s: QueueState, now: Time)
    ensures var t := PromoteDue(s, now).state;
            t.jobs.Keys == s.jobs.Keys && forall x | x in s.jobs :: AfterPromotion(s, s.jobs[x], t.jobs[x], now)
    ensures PromoteDue(s, now).reply == |set x | x in s.jobs && IsDue(s.jobs[x], now)|
  {
    var ranks := DueRanks(s, now);
    var due := Sorted(ranks, ranks.Keys);
    PromoteEachFrame(s, due);
    PromotedInOrder(s, due);
    forall x | x in s.jobs ensures AfterPromotion(s, s.jobs[x], PromoteEach(s, due).jobs[x], now) { PromotedRecord(s, PromoteEach(s, due), due, now, x); }
    assert ranks.Keys == set x | x in s.jobs && IsDue(s.jobs[x], now);
    SortedLength(ranks, ranks.Keys);
  }

  lemma PromotedRecord(s: QueueState, t: QueueState, due: seq<JobId>, now: Time, x: JobId)
    requires QueuedAll(s, t, due) && QueuedInOrder(s, t, due) && x in s.jobs && forall y :: y in due <==> y in DueRanks(s, now)
    ensures AfterPromotion(s, s.jobs[x], t.jobs[x], now)
  {
    DueMeans(s, now, x);
    if x in due { var k :| 0 <= k < |due| && due[k] == x; }
  }

  /** Jobs that fall due together queue up by schedule, then age, then id. */
  lemma DueOrderMeans(s: QueueState, now: Time, a: JobId, b: JobId)
    requires a in s.jobs && b in s.jobs && IsDue(s.jobs[a], now) && IsDue(s.jobs[b], now)
    requires || s.jobs[a].scheduledAt < s.jobs[b].scheduledAt
             || (s.jobs[a].scheduledAt == s.jobs[b].scheduledAt
                 && (s.jobs[a].createdAt < s.jobs[b].createdAt || (s.jobs[a].createdAt == s.jobs[b].createdAt && ByteLess(a, b))))
    ensures var t := PromoteDue(s, now).state; a in t.jobs && b in t.jobs && t.jobs[a].enqueuedSeq < t.jobs[b].enqueuedSeq
  {
    DueMeans(s, now, a);
    DueMeans(s, now, b);
    IdLessIsByteLess(a, b);
    DueJobsQueueBySchedule(s, now, a, b);
  }

  /**
    A claim promotes what is due and leases the waiting job that goes first;
    nothing is claimed only while the queue is paused or nobody waits.
   */
  lemma ClaimAnswers(s: QueueState, worker: string, token: Token, leaseFor: Duration, now: Time)
    requires Core(s)
    ensures var o := ClaimNext(s, worker, token, leaseFor, now);
            if s.paused then o.state == s && o.reply.None?
            else if o.reply.None? then
              forall x | x in o.state.jobs :: x in s.jobs && o.state.jobs[x].state != Waiting && AfterPromotion(s, s.jobs[x], o.state.jobs[x], now)
            else TakesTheFirst(s, o.state, o.reply.value, worker, token, now + leaseFor, now)
  {
    if !s.paused {
      PromoteDueKeeps(s, now);
      PromotionQueuesTheDue(s, now);
      var promoted := PromoteDue(s, now).state;
      ClaimableIsFirst(promoted);
      var first := Claimable(promoted);
      if first.Some? {
        FirstIsTaken(s, promoted, first.value, worker, token, leaseFor, now);
      } else {
        forall x | x in promoted.jobs ensures promoted.jobs[x].state != Waiting { assert x !in WaitingIds(promoted); }
      }
    }
  }

  ghost predicate TakesTheFirst(s: QueueState, t: QueueState, job: Job, worker: string, token: Token, until: Time, now: Time)
  {
    && t.jobs.Keys == s.jobs.Keys && job.id in s.jobs && t.jobs[job.id] == job
    && (s.jobs[job.id].state == Waiting || IsDue(s.jobs[job.id], now))
    && LeasedTo(s.jobs[job.id], job, worker, token, until, now)
    && (forall x | x in s.jobs && x != job.id :: AfterPromotion(s, s.jobs[x], t.jobs[x], now))
    && (forall x | x in t.jobs && t.jobs[x].state == Waiting :: GoesFirst(job, t.jobs[x]))
  }

  lemma FirstIsTaken(s: QueueState, promoted: QueueState, id: JobId, worker: string, token: Token, leaseFor: Duration, now: Time)
    requires Core(s) && Core(promoted) && promoted.jobs.Keys == s.jobs.Keys
    requires forall x | x in s.jobs :: AfterPromotion(s, s.jobs[x], promoted.jobs[x], now)
    requires IsFirst(promoted, WaitingIds(promoted), id)
    ensures var job := Claimed(promoted.jobs[id], worker, token, leaseFor, now);
            TakesTheFirst(s, Put(promoted, id, job), job, worker, token, now + leaseFor, now)
  {
    var job := Claimed(promoted.jobs[id], worker, token, leaseFor, now);
    assert WellFormedJob(id, promoted.jobs[id]);
    assert AfterPromotion(s, s.jobs[id], promoted.jobs[id], now);
    FirstGoesFirst(promoted, id, job);
    TakenJob(s.jobs[id], promoted.jobs[id], s, worker, token, leaseFor, now);
    StoringTheTaken(s, promoted, id, job, worker, token, now + leaseFor, now);
  }

  lemma StoringTheTaken(s: QueueState, promoted: QueueState, id: JobId, job: Job, worker: string, token: Token, until: Time, now: Time)
    requires promoted.jobs.Keys == s.jobs.Keys && id in s.jobs && job.id == id
    requires forall x | x in s.jobs :: AfterPromotion(s, s.jobs[x], promoted.jobs[x], now)
    requires promoted.jobs[id].state == Waiting && LeasedTo(s.jobs[id], job, worker, token, until, now)
    requires forall x | x in promoted.jobs && x != id && promoted.jobs[x].state == Waiting :: GoesFirst(job, promoted.jobs[x])
    ensures TakesTheFirst(s, Put(promoted, id, job), job, worker, token, until, now)
  {
    assert AfterPromotion(s, s.jobs[id], promoted.jobs[id], now);
  }

  lemma FirstGoesFirst(s: QueueState, id: JobId, claimed: Job)
    requires Core(s) && IsFirst(s, WaitingIds(s), id)
    requires claimed.id == s.jobs[id].id && claimed.priority == s.jobs[id].priority
    requires claimed.options == s.jobs[id].options && claimed.enqueuedSeq == s.jobs[id].enqueuedSeq
    ensures forall x | x in s.jobs && x != id && s.jobs[x].state == Waiting :: GoesFirst(claimed, s.jobs[x])
  {
    forall x | x in s.jobs && x != id && s.jobs[x].state == Waiting ensures GoesFirst(claimed, s.jobs[x]) {
      assert x in WaitingIds(s);
      ClaimOrderMeans(s, id, x);
    }
  }

  lemma TakenJob(before: Job, promoted: Job, s: QueueState, worker: string, token: Token, leaseFor: Duration, now: Time)
    requires AfterPromotion(s, before, promoted, now)
    ensures LeasedTo(before, Claimed(promoted, worker, token, leaseFor, now), worker, token, now + leaseFor, now)
  {
  }

  // -- Holding a lease --------------------------------------------------------------------------------

  /** Whether the caller holds the job under the token, and which error it gets otherwise. */
  predicate Holds(s: QueueState, id: JobId, token: Token)
  {
    id in s.jobs && s.jobs[id].state == Active && s.jobs[id].lockToken == Some(token)
  }

  /** The holder's request rewrites this one record; anybody else's changes nothing. */
  predicate RewritesHeld(s: QueueState, o: Out<Result<Job>>, id: JobId, token: Token)
  {
    if Holds(s, id, token)
    then o.reply.Ok? && o.state == s.(jobs := s.jobs[id := o.reply.value])
    else o == Out(s, Err(if id !in s.jobs then JobNotFound else if s.jobs[id].state != Active then JobStateConflict else JobLeaseConflict))
  }

  lemma RenewalAnswers(s: QueueState, id: JobId, token: Token, leaseFor: Duration, now: Time)
    ensures var o := Renew(s, id, token, leaseFor, now);
            && RewritesHeld(s, o, id, token)
            && (o.reply.Ok? ==> o.reply.value.leaseExpiresAt == Some(now + leaseFor)
                                && o.reply.value.(leaseExpiresAt := s.jobs[id].leaseExpiresAt) == s.jobs[id])
  {
  }

  /** A job given up to a later time, or given back, has no trace of the attempt but its count. */
  predicate GivenUp(before: Job, after: Job, at: Time, state: JobState)
  {
    && SameWork(before, after.(scheduledAt := before.scheduledAt, options := before.options)) && IsUnleased(after)
    && after.state == state && after.scheduledAt == at
    && after.processedAt.None? && after.failedReason.None? && after.deferredFailure.None?
    && after.finishedAt == before.finishedAt && after.returnValue == before.returnValue
  }

  lemma DelayAnswers(s: QueueState, id: JobId, token: Token, delay: Duration, now: Time)
    ensures var o := DelayActive(s, id, token, delay, now);
            && RewritesHeld(s, o, id, token)
            && (o.reply.Ok? ==> GivenUp(s.jobs[id], o.reply.value, now + delay, Delayed)
                                && o.reply.value.options == s.jobs[id].options.(delay := Some(delay))
                                && o.reply.value.enqueuedSeq == s.jobs[id].enqueuedSeq)
  {
  }

  /** A job given back goes before every queued job of its priority that was not given back itself. */
  lemma ReleaseAnswers(s: QueueState, id: JobId, token: Token, now: Time)
    ensures var o := ReleaseActive(s, id, token, now);
            && RewritesHeld(s, o, id, token)
            && (o.reply.Ok? ==>
                  && GivenUp(s.jobs[id], o.reply.value, now, Waiting) && o.reply.value.options == s.jobs[id].options
                  && forall x | x in s.jobs && x != id && s.jobs[x].state == Waiting && s.jobs[x].enqueuedSeq > 0
                                && s.jobs[x].priority == s.jobs[id].priority :: GoesFirst(o.reply.value, s.jobs[x]))
  {
  }
}
