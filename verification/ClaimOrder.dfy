/**
  The order in which waiting jobs are claimed: a strict total order, respected
  by every claim, so that no job is overtaken by one ordered after it.
 */
module ClaimOrder {
  import opened Ordering
  import opened JobTypes
  import opened QueueModel
  import opened CoreInvariant
  import opened CoreLifecycle
  import opened Operations
  import opened Steps

  // -- A strict total order ----------------------------------------------------------------

  lemma CompareIdFlips(a: JobId, b: JobId)
    ensures CompareId(a, b) == Less <==> CompareId(b, a) == Greater
    ensures CompareId(a, b) == Equal <==> a == b
  {
    IdTrichotomy(a, b);
    if IdLess(a, b) { IdAsymmetric(a, b); }
    if IdLess(b, a) { IdAsymmetric(b, a); }
  }

  lemma WaitingOrderFlips(a: Job, b: Job)
    ensures CompareWaitingOrder(a, b) == Less <==> CompareWaitingOrder(b, a) == Greater
    ensures CompareWaitingOrder(a, b) == Equal <==> CompareWaitingOrder(b, a) == Equal
  {
    CompareIdFlips(a.id, b.id);
    CompareIdFlips(b.id, a.id);
  }

  /** Exactly one of two distinct jobs comes first. */
  lemma ClaimOrderIsTotal(a: Job, b: Job)
    ensures CompareClaimOrder(a, b) == Less <==> CompareClaimOrder(b, a) == Greater
    ensures a.id != b.id ==> CompareClaimOrder(a, b) != Equal
    ensures CompareClaimOrder(a, a) == Equal
  {
    WaitingOrderFlips(a, b);
    CompareIdFlips(a.id, b.id);
    CompareIdFlips(b.id, a.id);
    CompareIdFlips(a.id, a.id);
  }

  lemma CompareIdTransitive(a: JobId, b: JobId, c: JobId)
    requires CompareId(a, b) != Greater && CompareId(b, c) != Greater
    ensures CompareId(a, c) != Greater
    ensures CompareId(a, c) == Equal ==> CompareId(a, b) == Equal && CompareId(b, c) == Equal
  {
    CompareIdFlips(a, b);
    CompareIdFlips(b, c);
    if IdLess(a, b) && IdLess(b, c) {
      IdTransitive(a, b, c);
      IdIrreflexive(a);
    }
  }

  /** Requeued jobs first, then last-in-first-out ones, then the rest. */
  lemma WaitingOrderTransitive(a: Job, b: Job, c: Job)
    requires CompareWaitingOrder(a, b) != Greater && CompareWaitingOrder(b, c) != Greater
    ensures CompareWaitingOrder(a, c) != Greater
    ensures CompareWaitingOrder(a, c) == Equal ==> CompareWaitingOrder(a, b) == Equal && CompareWaitingOrder(b, c) == Equal
  {
    if a.enqueuedSeq == 0 && b.enqueuedSeq == 0 && c.enqueuedSeq == 0 { CompareIdTransitive(a.id, b.id, c.id); }
  }

  lemma ClaimOrderTransitive(a: Job, b: Job, c: Job)
    requires CompareClaimOrder(a, b) == Less && CompareClaimOrder(b, c) == Less
    ensures CompareClaimOrder(a, c) == Less
  {
    if a.priority == b.priority && b.priority == c.priority {
      WaitingOrderTransitive(a, b, c);
      if CompareWaitingOrder(a, c) == Equal && a.scheduledAt == b.scheduledAt && b.scheduledAt == c.scheduledAt
         && a.createdAt == b.createdAt && b.createdAt == c.createdAt
      {
        CompareIdTransitive(a.id, b.id, c.id);
      }
    }
  }

  // -- Promotion ------------------------------------------------------------------------------

  /** Due jobs are queued one behind the other, in the order given, behind every stored sequence. */
  lemma {:induction false} PromotedInOrder(s: QueueState, ids: seq<JobId>)
    requires NoDuplicates(ids) && forall id | id in ids :: id in s.jobs
    ensures QueuedInOrder(s, PromoteEach(s, ids), ids)
    decreases |ids|
  {
    if ids != [] {
      var n := |ids| - 1;
      assert ids == ids[..n] + [ids[n]];
      assert ids[n] !in ids[..n];
      PromotedInOrder(s, ids[..n]);
      QueuedInOrderNext(s, PromoteEach(s, ids[..n]), ids[..n], ids[n]);
    }
  }

  ghost predicate QueuedInOrder(s: QueueState, t: QueueState, ids: seq<JobId>)
  {
    && t.sequence == s.sequence + |ids|
    && t.jobs.Keys == s.jobs.Keys
    && forall k | 0 <= k < |ids| :: ids[k] in t.jobs && t.jobs[ids[k]].enqueuedSeq == s.sequence + k + 1
  }

  lemma QueuedInOrderNext(s: QueueState, t: QueueState, ids: seq<JobId>, id: JobId)
    requires QueuedInOrder(s, t, ids) && id !in ids && id in s.jobs
    ensures QueuedInOrder(s, PutInOrder(t, id, t.jobs[id].(state := Waiting)), ids + [id])
  {
  }

  /** Waiting, or delayed and due at `now`. */
  predicate IsReady(s: QueueState, id: JobId, now: Time)
  {
    id in s.jobs && (s.jobs[id].state == Waiting || (s.jobs[id].state == Delayed && s.jobs[id].scheduledAt <= now))
  }

  /** After promotion exactly the ready jobs wait; those that waited before are unchanged. */
  lemma PromotionQueuesTheReady(s: QueueState, now: Time)
    ensures var t := PromoteDue(s, now).state;
            && t.jobs.Keys == s.jobs.Keys
            && (forall id | id in t.jobs :: t.jobs[id].state == Waiting <==> IsReady(s, id, now))
            && (forall id | id in s.jobs && s.jobs[id].state == Waiting :: t.jobs[id] == s.jobs[id])
  {
    PromoteEachFrame(s, Sorted(DueRanks(s, now), DueRanks(s, now).Keys));
  }

  /**
    Jobs that fall due together enter the queue earliest-scheduled first, ties
    by creation time and id, all behind the jobs already queued.
   */
  lemma DueJobsQueueBySchedule(s: QueueState, now: Time, a: JobId, b: JobId)
    requires a in DueRanks(s, now) && b in DueRanks(s, now) && Before(DueRanks(s, now), a, b)
    ensures var t := PromoteDue(s, now).state;
            a in t.jobs && b in t.jobs && s.sequence < t.jobs[a].enqueuedSeq < t.jobs[b].enqueuedSeq
  {
    var ranks := DueRanks(s, now);
    var due := Sorted(ranks, ranks.Keys);
    PromotedInOrder(s, due);
    var i :| 0 <= i < |due| && due[i] == a;
    var j :| 0 <= j < |due| && due[j] == b;
    if j <= i {
      BeforeIrreflexive(ranks, a);
      if j < i { assert Before(ranks, due[j], due[i]); BeforeTransitive(ranks, a, b, a); }
    }
  }

  // -- Claims -----------------------------------------------------------------------------------

  ghost function WaitingIds(s: QueueState): set<JobId>
  {
    set id | id in s.jobs && s.jobs[id].state == Waiting
  }

  /** `x` comes before every other job of `ids`. */
  ghost predicate IsFirst(s: QueueState, ids: set<JobId>, x: JobId)
    requires forall id | id in ids :: id in s.jobs
  {
    x in ids && forall other | other in ids && other != x :: CompareClaimOrder(s.jobs[x], s.jobs[other]) == Less
  }

  lemma FirstOfMore(s: QueueState, ids: set<JobId>, a: JobId, x: JobId)
    requires Records(s) && a in ids && forall id | id in ids :: id in s.jobs
    requires IsFirst(s, ids - {a}, x)
    ensures IsFirst(s, ids, a) || IsFirst(s, ids, x)
  {
    assert WellFormedJob(a, s.jobs[a]) && WellFormedJob(x, s.jobs[x]);
    ClaimOrderIsTotal(s.jobs[a], s.jobs[x]);
    ClaimOrderIsTotal(s.jobs[x], s.jobs[a]);
    if CompareClaimOrder(s.jobs[a], s.jobs[x]) == Less {
      forall other | other in ids && other != a ensures CompareClaimOrder(s.jobs[a], s.jobs[other]) == Less {
        if other != x { ClaimOrderTransitive(s.jobs[a], s.jobs[x], s.jobs[other]); }
      }
    }
  }

  lemma {:induction false} FirstExists(s: QueueState, ids: set<JobId>)
    requires Records(s) && ids != {} && forall id | id in ids :: id in s.jobs
    ensures exists first :: IsFirst(s, ids, first)
    decreases |ids|
  {
    var a :| a in ids;
    if ids == {a} {
      assert IsFirst(s, ids, a);
    } else {
      FirstExists(s, ids - {a});
      var x :| IsFirst(s, ids - {a}, x);
      FirstOfMore(s, ids, a, x);
    }
  }

  /** There is a first waiting job whenever any job waits, and it is the one to claim. */
  lemma ClaimableIsFirst(s: QueueState)
    requires Records(s)
    ensures Claimable(s).None? <==> WaitingIds(s) == {}
    ensures Claimable(s).Some? ==> IsFirst(s, WaitingIds(s), Claimable(s).value)
  {
    if WaitingIds(s) != {} {
      FirstExists(s, WaitingIds(s));
      var first :| IsFirst(s, WaitingIds(s), first);
      assert first in ClaimableIds(s);
    }
    if Claimable(s).Some? {
      var id := Claimable(s).value;
      assert IsClaimable(s, id);
      forall other | other in WaitingIds(s) && other != id ensures CompareClaimOrder(s.jobs[id], s.jobs[other]) == Less {
        assert WellFormedJob(id, s.jobs[id]) && WellFormedJob(other, s.jobs[other]);
        ClaimOrderIsTotal(s.jobs[id], s.jobs[other]);
      }
    }
  }

  /**
    A claim takes the first of all waiting and due jobs. It takes nothing
    exactly when the queue is paused or no job is ready.
   */
  lemma ClaimTakesTheFirst(s: QueueState, worker: string, token: Token, leaseFor: Duration, now: Time)
    requires Core(s)
    ensures var reply := ClaimNext(s, worker, token, leaseFor, now).reply;
            var queued := PromoteDue(s, now).state;
            && (reply.None? <==> s.paused || !exists id :: IsReady(s, id, now))
            && (reply.Some? ==>
                  && IsReady(s, reply.value.id, now)
                  && reply.value.id in queued.jobs
                  && forall other | IsReady(s, other, now) && other != reply.value.id
                       :: other in queued.jobs && CompareClaimOrder(queued.jobs[reply.value.id], queued.jobs[other]) == Less)
  {
    PromoteDueKeeps(s, now);
    PromotionQueuesTheReady(s, now);
    var queued := PromoteDue(s, now).state;
    ClaimableIsFirst(queued);
    var id := Claimable(queued);
    if id.Some? { assert WellFormedJob(id.value, queued.jobs[id.value]); }
    assert (exists id :: IsReady(s, id, now)) <==> WaitingIds(queued) != {} by {
      if id :| IsReady(s, id, now) { assert id in WaitingIds(queued); }
      if id :| id in WaitingIds(queued) { assert IsReady(s, id, now); }
    }
  }

  lemma NotOvertaken(s: QueueState, a: JobId, b: JobId, worker: string, token: Token, leaseFor: Duration, now: Time)
    requires Core(s) && a in s.jobs && b in s.jobs && s.jobs[a].state == Waiting && s.jobs[b].state == Waiting
    requires CompareClaimOrder(s.jobs[a], s.jobs[b]) == Less
    ensures var t := ClaimNext(s, worker, token, leaseFor, now).state; b in t.jobs && t.jobs[b] == s.jobs[b]
  {
    if !s.paused {
      PromoteDueKeeps(s, now);
      PromotionQueuesTheReady(s, now);
      var queued := PromoteDue(s, now).state;
      ClaimableIsFirst(queued);
      ClaimOrderIsTotal(s.jobs[a], s.jobs[b]);
      assert a in WaitingIds(queued) && b in WaitingIds(queued);
    }
  }

  /** Job `a` stays as it is along the whole run, and only claims may touch `b`. */
  ghost predicate Undisturbed(s: QueueState, ops: seq<Op>, a: JobId, b: JobId)
    requires a in s.jobs && b in s.jobs
    decreases |ops|
  {
    ops == [] ||
    (&& ops[0].WellFormed() && FreshIds(s, ops[0])
     && var t := Step(s, ops[0]).state;
        && a in t.jobs && t.jobs[a] == s.jobs[a]
        && b in t.jobs && (!ops[0].OpClaim? ==> t.jobs[b] == s.jobs[b])
        && Undisturbed(t, ops[1..], a, b))
  }

  lemma StepSparesLater(s: QueueState, op: Op, a: JobId, b: JobId)
    requires Core(s) && a in s.jobs && b in s.jobs && s.jobs[a].state == Waiting && s.jobs[b].state == Waiting
    requires CompareClaimOrder(s.jobs[a], s.jobs[b]) == Less && op.WellFormed()
    ensures var t := Step(s, op).state; op.OpClaim? ==> b in t.jobs && t.jobs[b] == s.jobs[b]
  {
    if op.OpClaim? {
      WorkStep(s, op);
      NotOvertaken(s, a, b, op.worker, op.token, op.leaseFor, op.now);
    }
  }

  /**
    No overtaking: while a waiting job stays unmodified, no run of operations
    claims another unmodified waiting job that is ordered after it.
   */
  lemma {:induction false} NeverOvertaken(s: QueueState, ops: seq<Op>, a: JobId, b: JobId)
    requires forall k | 0 <= k < |ops| :: ops[k].WellFormed()
    requires Core(s) && a in s.jobs && b in s.jobs && s.jobs[a].state == Waiting && s.jobs[b].state == Waiting
    requires CompareClaimOrder(s.jobs[a], s.jobs[b]) == Less && Undisturbed(s, ops, a, b)
    ensures var t := Run(s, ops); b in t.jobs && t.jobs[b] == s.jobs[b]
    decreases |ops|
  {
    if ops != [] {
      StepKeepsCore(s, ops[0]);
      StepSparesLater(s, ops[0], a, b);
      NeverOvertaken(Step(s, ops[0]).state, ops[1..], a, b);
    }
  }
}
