/**
  Which jobs stalled recovery takes from their workers, what it makes of each,
  and what it tells their parents, read off the fields of the records before
  and after.
 */
module RecoveryOutcomes {
  import opened Ordering
  import opened JobTypes
  import opened QueueModel
  import opened CoreInvariant
  import opened CoreLifecycle
  import opened Operations
  import opened FanIn
  import opened FanInLimits
  import opened RecoveryLimits
  import opened ParentOutcomes

  /** A worker holds the job, and its lease has run out. */
  predicate LeaseIsOver(job: Job, now: Time)
  {
    job.state == Active && job.leaseExpiresAt.Some? && job.leaseExpiresAt.value <= now
  }

  /** One more stall is one too many, and the job is not a live repeat occurrence. */
  predicate IsExhausted(job: Job)
  {
    job.stalledCount + 1 > job.options.maxStalledCount && (job.repeatKey.None? || job.options.repeat.None?)
  }

  /** This recovery fails the job for good. */
  predicate GivesUpOn(s: QueueState, c: JobId, now: Time)
  {
    c in s.jobs && LeaseIsOver(s.jobs[c], now) && IsExhausted(s.jobs[c])
  }

  const STALLED := "job stalled after worker lease expired"

  /** A job waits again after one more stall. */
  predicate WaitsAgain(before: Job, after: Job)
  {
    && SameWork(before.(stalledCount := before.stalledCount + 1), after) && IsUnleased(after)
    && after.state == Waiting && after.failedReason == Some(STALLED) && after.deferredFailure.None?
    && after.processedAt.None? && after.finishedAt == before.finishedAt && after.returnValue == before.returnValue
  }

  // -- Which jobs ---------------------------------------------------------------------------------

  lemma StalledMeans(s: QueueState, now: Time, id: JobId)
    ensures id in StalledRanks(s, now) <==> id in s.jobs && LeaseIsOver(s.jobs[id], now)
    ensures id in Dying(s, now) <==> GivesUpOn(s, id, now)
  {
  }

  ghost function ExpiredLeases(s: QueueState, now: Time): set<JobId>
  {
    set id | id in s.jobs && LeaseIsOver(s.jobs[id], now)
  }

  /** Recovery answers how many leases have run out. */
  lemma RecoveryCounts(s: QueueState, now: Time)
    ensures RecoverStalled(s, now).reply == |ExpiredLeases(s, now)|
  {
    forall id ensures id in StalledRanks(s, now) <==> id in ExpiredLeases(s, now) { StalledMeans(s, now, id); }
    assert StalledRanks(s, now).Keys == ExpiredLeases(s, now);
    SortedLength(StalledRanks(s, now), StalledRanks(s, now).Keys);
  }

  // -- Bystanders -----------------------------------------------------------------------------------

  /** Some job that recovery gives up on names `x` as its parent. */
  ghost predicate LosesChild(s: QueueState, x: JobId, now: Time)
  {
    exists c :: GivesUpOn(s, c, now) && s.jobs[c].parentId == Some(x)
  }

  lemma ReactFrame(s: QueueState, child: Job, now: Time, x: JobId)
    requires IsLiveJob(s, x) && child.parentId != Some(x)
    ensures var t := React(s, child, now); x in t.jobs && t.jobs[x] == s.jobs[x]
  {
    if child.parentId.Some? {
      var p := child.parentId.value;
      match ReactionTo(child)
      case Defer =>
      case Continue =>
      case Release => if IsParked(s, p) { ReleaseDecides(s, p, now); }
      case FailOutright => FailParentFrame(s, p, ChildFailureReason(child.id, child.failedReason), now);
    }
  }

  /** None of the failures whose reaction is `r` names `x`. */
  ghost predicate NotNamed(failures: seq<Job>, r: Reaction, x: JobId)
  {
    forall f | f in failures && ReactionTo(f) == r :: f.parentId != Some(x)
  }

  lemma {:induction false} ReactAllFrame(s: QueueState, failures: seq<Job>, r: Reaction, now: Time, x: JobId)
    requires IsLiveJob(s, x) && NotNamed(failures, r, x)
    ensures var t := ReactAll(s, failures, r, now); x in t.jobs && t.jobs[x] == s.jobs[x]
    decreases |failures|
  {
    if failures != [] {
      var n := |failures| - 1;
      assert failures == failures[..n] + [failures[n]];
      ReactAllFrame(s, failures[..n], r, now, x);
      if ReactionTo(failures[n]) == r { ReactFrame(ReactAll(s, failures[..n], r, now), failures[n], now, x); }
    }
  }

  lemma ReactionsFrame(s: QueueState, failures: seq<Job>, now: Time, x: JobId)
    requires IsLiveJob(s, x) && forall f | f in failures :: f.parentId != Some(x)
    ensures var t := Reactions(s, failures, now); x in t.jobs && t.jobs[x] == s.jobs[x]
  {
    var a := ReactAll(s, failures, Defer, now);
    var b := ReactAll(a, failures, Continue, now);
    ReactAllFrame(s, failures, Defer, now, x);
    ReactAllFrame(a, failures, Continue, now, x);
    ReactAllFrame(b, failures, Release, now, x);
    ReactAllFrame(ReactAll(b, failures, Release, now), failures, FailOutright, now, x);
  }

  /** A job that is live once the stalled ones were rewritten keeps that record until parents are told. */
  lemma SettledKeepsLive(s: QueueState, now: Time, x: JobId)
    requires Core(s) && IsLiveJob(RecoveredState(s, now), x)
    ensures x in SettledState(s, now).jobs && SettledState(s, now).jobs[x] == RecoveredState(s, now).jobs[x]
  {
    var u := RecoveredState(s, now);
    RecoveredEnds(s, now);
    FailuresAreDying(s, now);
    forall f | f in Failures(s, now) ensures !IsLive(u, f.id) {}
    SettledEnds(u, Failures(s, now), now);
  }

  lemma NobodyNames(s: QueueState, failures: seq<Job>, now: Time, x: JobId)
    requires AreFailures(s, failures, now) && !LosesChild(s, x, now)
    ensures forall f | f in failures :: f.parentId != Some(x)
  {
    forall f | f in failures ensures f.parentId != Some(x) {
      StalledMeans(s, now, f.id);
    }
  }

  /** What a stalled job, or a bystander, looks like before the clean-up. */
  lemma RecoveredRecord(s: QueueState, now: Time, x: JobId)
    requires Core(s) && x in s.jobs
    ensures var u := RecoveredState(s, now);
            && x in u.jobs
            && (!LeaseIsOver(s.jobs[x], now) ==> u.jobs[x] == s.jobs[x])
            && (LeaseIsOver(s.jobs[x], now) && !IsExhausted(s.jobs[x]) ==> WaitsAgain(s.jobs[x], u.jobs[x]))
            && (GivesUpOn(s, x, now) ==> FailedFor(s.jobs[x].(stalledCount := s.jobs[x].stalledCount + 1), u.jobs[x], STALLED, now))
  {
    var ids := Sorted(StalledRanks(s, now), StalledRanks(s, now).Keys);
    StalledMeans(s, now, x);
    RecoverEachFrame(s, ids, now);
    if x in ids { assert RecoveredFrom(s.jobs[x], RecoveredState(s, now).jobs[x], now); }
  }

  /** An unfinished job whose lease is not over and that loses no child keeps its record, lease included. */
  lemma RecoverySparesTheRest(s: QueueState, now: Time, x: JobId)
    requires Core(s) && IsLiveJob(s, x) && !LeaseIsOver(s.jobs[x], now) && !LosesChild(s, x, now)
    ensures var t := RecoverStalled(s, now).state; x in t.jobs && t.jobs[x] == s.jobs[x]
  {
    RecoveredRecord(s, now, x);
    SettledKeepsLive(s, now, x);
    FailuresAreDying(s, now);
    NobodyNames(s, Failures(s, now), now, x);
    RecoveryIs(s, now);
    ReactionsFrame(SettledState(s, now), Failures(s, now), now, x);
  }

  /** A finished job that recovery keeps is kept as it was. */
  lemma RecoverySparesTheEnded(s: QueueState, now: Time, x: JobId)
    requires Core(s) && x in s.jobs && s.jobs[x].state.IsTerminal() && x in RecoverStalled(s, now).state.jobs
    ensures RecoverStalled(s, now).state.jobs[x] == s.jobs[x]
  {
    var u := RecoveredState(s, now);
    RecoveredRecord(s, now, x);
    RecoveredIsCore(s, now);
    RecoveryAftermathIsCalm(u, Failures(s, now), now);
    assert CalmJob(u.jobs[x], RecoverStalled(s, now).state.jobs[x]);
  }

  // -- The stalled jobs -----------------------------------------------------------------------------------

  /** Whatever else happens to it, a job whose lease was over has lost it, and has one more stall on its record. */
  lemma RecoveryTakesLeases(s: QueueState, now: Time, x: JobId)
    requires Core(s) && x in s.jobs && LeaseIsOver(s.jobs[x], now) && x in RecoverStalled(s, now).state.jobs
    ensures var job := RecoverStalled(s, now).state.jobs[x];
            IsUnleased(job) && SameWork(s.jobs[x].(stalledCount := s.jobs[x].stalledCount + 1), job)
  {
    var u := RecoveredState(s, now);
    RecoveredRecord(s, now, x);
    RecoveredIsCore(s, now);
    RecoveryAftermathIsCalm(u, Failures(s, now), now);
    var t := RecoverStalled(s, now).state;
    assert CalmJob(u.jobs[x], t.jobs[x]) && WellFormedJob(x, t.jobs[x]);
  }

  lemma RecoveredIsCore(s: QueueState, now: Time)
    requires Core(s)
    ensures Core(RecoveredState(s, now))
  {
    RecoverEachKeeps(s, Sorted(StalledRanks(s, now), StalledRanks(s, now).Keys), now);
  }

  /** A job that stalled once too often is failed now, if its record is kept. */
  lemma RecoveryGivesUp(s: QueueState, now: Time, x: JobId)
    requires Core(s) && GivesUpOn(s, x, now) && x in RecoverStalled(s, now).state.jobs
    ensures FailedFor(s.jobs[x].(stalledCount := s.jobs[x].stalledCount + 1), RecoverStalled(s, now).state.jobs[x], STALLED, now)
  {
    var u := RecoveredState(s, now);
    RecoveredRecord(s, now, x);
    RecoveredIsCore(s, now);
    RecoveryAftermathIsCalm(u, Failures(s, now), now);
    assert CalmJob(u.jobs[x], RecoverStalled(s, now).state.jobs[x]);
  }

  /** Any other stalled job waits again, behind everything that was queued, unless it loses a child too. */
  lemma RecoveryRequeues(s: QueueState, now: Time, x: JobId)
    requires Core(s) && x in s.jobs && LeaseIsOver(s.jobs[x], now) && !IsExhausted(s.jobs[x]) && !LosesChild(s, x, now)
    ensures var t := RecoverStalled(s, now).state; x in t.jobs && WaitsAgain(s.jobs[x], t.jobs[x]) && BehindAll(s, t.jobs[x])
  {
    RecoveredRecord(s, now, x);
    RecoveredBehindAll(s, now, x);
    SettledKeepsLive(s, now, x);
    FailuresAreDying(s, now);
    NobodyNames(s, Failures(s, now), now, x);
    RecoveryIs(s, now);
    ReactionsFrame(SettledState(s, now), Failures(s, now), now, x);
  }

  /** Jobs queued by recovery take fresh sequences, in the order of `ids`. */
  ghost predicate RequeuedInOrder(s: QueueState, t: QueueState, ids: seq<JobId>)
  {
    && s.sequence <= t.sequence && t.jobs.Keys == s.jobs.Keys
    && (forall k | 0 <= k < |ids| && ids[k] in t.jobs && t.jobs[ids[k]].state == Waiting :: s.sequence < t.jobs[ids[k]].enqueuedSeq <= t.sequence)
    && (forall i, j | 0 <= i < j < |ids| && ids[i] in t.jobs && ids[j] in t.jobs && t.jobs[ids[i]].state == Waiting && t.jobs[ids[j]].state == Waiting
          :: t.jobs[ids[i]].enqueuedSeq < t.jobs[ids[j]].enqueuedSeq)
  }

  lemma RequeuedNext(s: QueueState, t: QueueState, ids: seq<JobId>, id: JobId, now: Time)
    requires RequeuedInOrder(s, t, ids) && id in t.jobs && id !in ids
    ensures RequeuedInOrder(s, Recovered(t, id, now), ids + [id])
  {
    var u, more := Recovered(t, id, now), ids + [id];
    forall x | x in t.jobs && x != id ensures x in u.jobs && u.jobs[x] == t.jobs[x] {}
    forall k | 0 <= k < |ids| ensures more[k] == ids[k] && more[k] != id {}
  }

  lemma {:induction false} RecoverEachInOrder(s: QueueState, ids: seq<JobId>, now: Time)
    requires NoDuplicates(ids) && forall id | id in ids :: id in s.jobs
    ensures RequeuedInOrder(s, RecoverEach(s, ids, now), ids)
    decreases |ids|
  {
    if ids != [] {
      var n := |ids| - 1;
      assert ids == ids[..n] + [ids[n]];
      assert ids[n] !in ids[..n];
      RecoverEachInOrder(s, ids[..n], now);
      RequeuedNext(s, RecoverEach(s, ids[..n], now), ids[..n], ids[n], now);
    }
  }

  lemma RecoveredBehindAll(s: QueueState, now: Time, x: JobId)
    requires x in s.jobs && LeaseIsOver(s.jobs[x], now)
    ensures x in RecoveredState(s, now).jobs && BehindAll(s, RecoveredState(s, now).jobs[x])
  {
    var ids := Sorted(StalledRanks(s, now), StalledRanks(s, now).Keys);
    StalledMeans(s, now, x);
    RecoverEachInOrder(s, ids, now);
    var k :| 0 <= k < |ids| && ids[k] == x;
  }

  /** The order of recovery: by expiry, then by start, then by id. */
  predicate LeaseOverFirst(a: Job, b: Job)
    requires a.leaseExpiresAt.Some? && b.leaseExpiresAt.Some?
  {
    || a.leaseExpiresAt.value < b.leaseExpiresAt.value
    || (a.leaseExpiresAt == b.leaseExpiresAt
        && (|| (a.processedAt.None? && b.processedAt.Some?)
            || (a.processedAt.Some? && b.processedAt.Some? && a.processedAt.value < b.processedAt.value)
            || (a.processedAt == b.processedAt && IdLess(a.id, b.id))))
  }

  lemma LeaseOrderIsRankOrder(s: QueueState, now: Time, x: JobId, y: JobId)
    requires Core(s) && x in s.jobs && y in s.jobs && LeaseIsOver(s.jobs[x], now) && LeaseIsOver(s.jobs[y], now)
    ensures x in StalledRanks(s, now) && y in StalledRanks(s, now)
    ensures Before(StalledRanks(s, now), x, y) <==> LeaseOverFirst(s.jobs[x], s.jobs[y])
  {
    assert WellFormedJob(x, s.jobs[x]) && WellFormedJob(y, s.jobs[y]);
  }

  /** Jobs recovered together queue up in the order in which their leases ran out. */
  lemma RecoveryQueuesByLease(s: QueueState, now: Time, x: JobId, y: JobId)
    requires Core(s) && x in s.jobs && y in s.jobs && LeaseIsOver(s.jobs[x], now) && LeaseIsOver(s.jobs[y], now)
    requires !IsExhausted(s.jobs[x]) && !LosesChild(s, x, now) && !IsExhausted(s.jobs[y]) && !LosesChild(s, y, now)
    requires LeaseOverFirst(s.jobs[x], s.jobs[y])
    ensures var t := RecoverStalled(s, now).state; x in t.jobs && y in t.jobs && t.jobs[x].enqueuedSeq < t.jobs[y].enqueuedSeq
  {
    RecoveredInOrder(s, now, x, y);
    RecoveredRecord(s, now, x);
    RecoveredRecord(s, now, y);
    SettledKeepsLive(s, now, x);
    SettledKeepsLive(s, now, y);
    FailuresAreDying(s, now);
    NobodyNames(s, Failures(s, now), now, x);
    NobodyNames(s, Failures(s, now), now, y);
    RecoveryIs(s, now);
    ReactionsFrame(SettledState(s, now), Failures(s, now), now, x);
    ReactionsFrame(SettledState(s, now), Failures(s, now), now, y);
  }

  lemma RecoveredInOrder(s: QueueState, now: Time, x: JobId, y: JobId)
    requires Core(s) && x in s.jobs && y in s.jobs && LeaseIsOver(s.jobs[x], now) && LeaseIsOver(s.jobs[y], now)
    requires LeaseOverFirst(s.jobs[x], s.jobs[y])
    ensures var u := RecoveredState(s, now);
            && x in u.jobs && y in u.jobs
            && (u.jobs[x].state == Waiting && u.jobs[y].state == Waiting ==> u.jobs[x].enqueuedSeq < u.jobs[y].enqueuedSeq)
  {
    var ids := Sorted(StalledRanks(s, now), StalledRanks(s, now).Keys);
    LeaseOrderIsRankOrder(s, now, x, y);
    RecoverEachInOrder(s, ids, now);
    var i :| 0 <= i < |ids| && ids[i] == x;
    var j :| 0 <= j < |ids| && ids[j] == y;
    if j < i { BeforeTotal(StalledRanks(s, now), x, y); }
    if i == j { BeforeIrreflexive(StalledRanks(s, now), x); }
  }
}
