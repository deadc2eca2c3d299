/**
  What stalled recovery tells the parents of the jobs it gives up on, however
  many of them it gives up on at once.
 */
module RecoveryParents {
  import opened Ordering
  import opened JobTypes
  import opened QueueModel
  import opened CoreInvariant
  import opened CoreLifecycle
  import opened Operations
  import opened FanIn
  import opened RecoveryLimits
  import opened ParentOutcomes
  import opened RecoveryOutcomes

  // -- What the parent of a lost child reads ----------------------------------------------------------

  /** The parent has to report the failure. */
  predicate IsFatal(job: Job) { job.options.failParentOnFailure }

  predicate LetsGoOn(job: Job) { !job.options.failParentOnFailure && job.options.continueParentOnFailure }

  /** No policy softens the failure. */
  predicate IsDamning(job: Job)
  {
    && !job.options.failParentOnFailure && !job.options.continueParentOnFailure
    && !job.options.ignoreDependencyOnFailure && !job.options.removeDependencyOnFailure
  }

  /** Recovery gives up on child `c` of `p`. */
  predicate IsLost(s: QueueState, c: JobId, p: JobId, now: Time)
  {
    GivesUpOn(s, c, now) && s.jobs[c].parentId == Some(p)
  }

  /** A parent's record before it is told: one stall more if its own lease was over. */
  function BeforeTold(job: Job, now: Time): Job
  {
    if LeaseIsOver(job, now) then job.(stalledCount := job.stalledCount + 1) else job
  }

  // -- Phases, parent by parent ----------------------------------------------------------------------------

  /** Of the failures whose reaction is `r`, the `k`th is the last to name `p`. */
  predicate LastToName(failures: seq<Job>, r: Reaction, p: JobId, k: nat)
  {
    && k < |failures| && failures[k].parentId == Some(p) && ReactionTo(failures[k]) == r
    && forall j | k < j < |failures| :: failures[j].parentId != Some(p) || ReactionTo(failures[j]) != r
  }

  lemma ReactGrows(s: QueueState, child: Job, now: Time)
    ensures React(s, child, now).sequence >= s.sequence
  {
    if child.parentId.Some? {
      match ReactionTo(child)
      case Defer =>
      case Continue =>
      case Release => ReleaseGrows(s, child.parentId.value, now);
      case FailOutright => FailGrows(s, child.parentId.value, ChildFailureReason(child.id, child.failedReason), now);
    }
  }

  lemma FailGrows(s: QueueState, p: JobId, reason: string, now: Time)
    ensures FailParent(s, p, reason, now).sequence == s.sequence
  {
  }

  lemma ReleaseGrows(s: QueueState, p: JobId, now: Time)
    ensures ReleaseParent(s, p, now).sequence >= s.sequence
  {
    if IsParked(s, p) {
      match ScanChildren(s, s.jobs[p].childIds)
      case Blocked =>
      case Ready(Some(c), _) =>
      case Ready(None, Some(c)) => FailGrows(s, p, ChildFailureReason(c, if c in s.jobs then s.jobs[c].failedReason else None), now);
      case Ready(None, None) =>
    }
  }

  lemma {:induction false} ReactAllGrows(s: QueueState, failures: seq<Job>, r: Reaction, now: Time)
    ensures ReactAll(s, failures, r, now).sequence >= s.sequence
    decreases |failures|
  {
    if failures != [] {
      var n := |failures| - 1;
      ReactAllGrows(s, failures[..n], r, now);
      if ReactionTo(failures[n]) == r { ReactGrows(ReactAll(s, failures[..n], r, now), failures[n], now); }
    }
  }

  /** A deferring phase leaves the parent with the last failure that names it. */
  lemma {:induction false} DeferPhase(s: QueueState, failures: seq<Job>, now: Time, p: JobId, k: nat)
    requires IsLiveJob(s, p) && LastToName(failures, Defer, p, k)
    ensures var t := ReactAll(s, failures, Defer, now);
            p in t.jobs && RunsAgain(s.jobs[p], t.jobs[p], Some(failures[k].id), now) && BehindAll(s, t.jobs[p])
    decreases |failures|
  {
    var n := |failures| - 1;
    var u := ReactAll(s, failures[..n], Defer, now);
    assert failures == failures[..n] + [failures[n]];
    if k == n {
      DeferredSoFar(s, failures[..n], now, p);
      ReactAllGrows(s, failures[..n], Defer, now);
      ResumedRuns(u, p, Some(failures[n].id), now);
      DeferAgain(s, u, failures[n], now, p);
    } else {
      assert LastToName(failures[..n], Defer, p, k);
      DeferPhase(s, failures[..n], now, p, k);
      if ReactionTo(failures[n]) == Defer { ReactFrame(u, failures[n], now, p); }
    }
  }

  lemma DeferAgain(s: QueueState, u: QueueState, child: Job, now: Time, p: JobId)
    requires IsLiveJob(s, p) && child.parentId == Some(p) && ReactionTo(child) == Defer && s.sequence <= u.sequence
    requires IsLiveJob(u, p) && (u.jobs[p] == s.jobs[p] || exists first :: RunsAgain(s.jobs[p], u.jobs[p], first, now))
    ensures var t := React(u, child, now);
            p in t.jobs && RunsAgain(s.jobs[p], t.jobs[p], Some(child.id), now) && BehindAll(s, t.jobs[p])
  {
    ResumedRuns(u, p, Some(child.id), now);
  }

  /** However many failures of the phase came before, the parent is untouched or runs again. */
  lemma {:induction false} DeferredSoFar(s: QueueState, failures: seq<Job>, now: Time, p: JobId)
    requires IsLiveJob(s, p)
    ensures var t := ReactAll(s, failures, Defer, now);
            IsLiveJob(t, p) && (t.jobs[p] == s.jobs[p] || exists first :: RunsAgain(s.jobs[p], t.jobs[p], first, now))
    decreases |failures|
  {
    if failures != [] {
      var n := |failures| - 1;
      var u := ReactAll(s, failures[..n], Defer, now);
      DeferredSoFar(s, failures[..n], now, p);
      if ReactionTo(failures[n]) == Defer {
        if failures[n].parentId == Some(p) {
          ReactAllGrows(s, failures[..n], Defer, now);
          DeferAgain(s, u, failures[n], now, p);
        } else {
          ReactFrame(u, failures[n], now, p);
        }
      }
    }
  }

  /** Whoever runs already is neither continued nor released. */
  lemma {:induction false} IdlePhase(s: QueueState, failures: seq<Job>, r: Reaction, now: Time, p: JobId)
    requires IsLiveJob(s, p) && !IsParked(s, p) && (r == Continue || r == Release)
    ensures var t := ReactAll(s, failures, r, now); p in t.jobs && t.jobs[p] == s.jobs[p]
    decreases |failures|
  {
    if failures != [] {
      var n := |failures| - 1;
      IdlePhase(s, failures[..n], r, now, p);
      var u := ReactAll(s, failures[..n], r, now);
      if ReactionTo(failures[n]) == r && failures[n].parentId != Some(p) { ReactFrame(u, failures[n], now, p); }
    }
  }

  /** A parked parent is continued by the first failure that lets it go on. */
  lemma {:induction false} ContinuePhase(s: QueueState, failures: seq<Job>, now: Time, p: JobId)
    requires IsParked(s, p)
    ensures var t := ReactAll(s, failures, Continue, now);
            p in t.jobs && if exists f :: f in failures && f.parentId == Some(p) && ReactionTo(f) == Continue
                           then RunsAgain(s.jobs[p], t.jobs[p], None, now) && BehindAll(s, t.jobs[p])
                           else t.jobs[p] == s.jobs[p]
    decreases |failures|
  {
    if failures != [] {
      var n := |failures| - 1;
      assert failures == failures[..n] + [failures[n]];
      ContinuePhase(s, failures[..n], now, p);
      ReactAllGrows(s, failures[..n], Continue, now);
      var u := ReactAll(s, failures[..n], Continue, now);
      if ReactionTo(failures[n]) == Continue {
        if failures[n].parentId != Some(p) {
          ReactFrame(u, failures[n], now, p);
        } else if IsParked(u, p) {
          ResumedRuns(u, p, None, now);
        }
      }
    }
  }

  /** Failing outright ends the parent, for one of the failures that name it. */
  lemma {:induction false} OutrightPhase(s: QueueState, failures: seq<Job>, now: Time, p: JobId)
    requires IsLiveJob(s, p)
    ensures OutrightSays(s, ReactAll(s, failures, FailOutright, now), failures, now, p)
    decreases |failures|
  {
    if failures != [] {
      var n := |failures| - 1;
      assert failures == failures[..n] + [failures[n]];
      OutrightPhase(s, failures[..n], now, p);
      OutrightNext(s, ReactAll(s, failures[..n], FailOutright, now), failures[..n], failures[n], now, p);
    }
  }

  ghost predicate OutrightSays(s: QueueState, t: QueueState, failures: seq<Job>, now: Time, p: JobId)
    requires p in s.jobs
  {
    if exists f :: f in failures && f.parentId == Some(p) && ReactionTo(f) == FailOutright
    then !IsLiveJob(t, p) && (p in t.jobs ==> exists f :: f in failures && f.parentId == Some(p) && ReactionTo(f) == FailOutright
                                                && FailedFor(s.jobs[p], t.jobs[p], BecauseOf(f.id, f.failedReason), now))
    else p in t.jobs && t.jobs[p] == s.jobs[p]
  }

  lemma OutrightNext(s: QueueState, u: QueueState, failures: seq<Job>, f: Job, now: Time, p: JobId)
    requires IsLiveJob(s, p) && OutrightSays(s, u, failures, now, p)
    ensures OutrightSays(s, if ReactionTo(f) == FailOutright then React(u, f, now) else u, failures + [f], now, p)
  {
    assert forall g :: g in failures + [f] <==> g in failures || g == f;
    if ReactionTo(f) == FailOutright && f.parentId.Some? {
      var q := f.parentId.value;
      FailParentFrame(u, q, ChildFailureReason(f.id, f.failedReason), now);
      if q == p && IsLiveJob(u, p) {
        FailedParentSays(u, p, ChildFailureReason(f.id, f.failedReason), now);
      }
    }
  }

  // -- The failures of one recovery -------------------------------------------------------------------------

  /** Failures are found in the order of `ids`. */
  ghost predicate FoundInOrder(t: QueueState, ids: seq<JobId>, ranks: map<JobId, Rank>, failures: seq<Job>)
    requires forall id | id in ids :: id in ranks
  {
    && (forall k | 0 <= k < |failures| :: failures[k].id in ids && failures[k].id in t.jobs && failures[k] == t.jobs[failures[k].id])
    && (forall i, j | 0 <= i < j < |failures| :: Before(ranks, failures[i].id, failures[j].id))
  }

  lemma FoundNext(t: QueueState, ids: seq<JobId>, ranks: map<JobId, Rank>, failures: seq<Job>, id: JobId)
    requires (forall x | x in ids + [id] :: x in ranks) && (forall x | x in ids :: x in ids + [id])
    requires FoundInOrder(t, ids, ranks, failures) && forall x | x in ids :: Before(ranks, x, id)
    requires id in t.jobs ==> t.jobs[id].id == id
    ensures FoundInOrder(t, ids + [id], ranks, failures + (if id in t.jobs && t.jobs[id].state == Failed then [t.jobs[id]] else []))
  {
    assert (ids + [id])[|ids|] == id;
  }

  lemma LastIsBehind(ranks: map<JobId, Rank>, ids: seq<JobId>)
    requires ids != [] && (forall id | id in ids :: id in ranks) && SortedBefore(ranks, ids)
    ensures var n := |ids| - 1; ids == ids[..n] + [ids[n]] && SortedBefore(ranks, ids[..n]) && forall x | x in ids[..n] :: Before(ranks, x, ids[n])
  {
    var n := |ids| - 1;
    forall x | x in ids[..n] ensures Before(ranks, x, ids[n]) { var k :| 0 <= k < n && ids[..n][k] == x; }
  }

  lemma {:induction false} FailedInOrder(t: QueueState, ids: seq<JobId>, ranks: map<JobId, Rank>)
    requires (forall id | id in ids :: id in ranks) && SortedBefore(ranks, ids)
    requires forall id | id in ids && id in t.jobs :: t.jobs[id].id == id
    ensures FoundInOrder(t, ids, ranks, FailedAmong(t, ids))
    decreases |ids|
  {
    if ids != [] {
      var n := |ids| - 1;
      LastIsBehind(ranks, ids);
      FailedInOrder(t, ids[..n], ranks);
      FoundNext(t, ids[..n], ranks, FailedAmong(t, ids[..n]), ids[n]);
    }
  }

  /** The failures are the jobs given up on, each with its parent and its reason, in the order of their leases. */
  ghost predicate AreLost(s: QueueState, failures: seq<Job>, now: Time)
  {
    && (forall f | f in failures :: GivesUpOn(s, f.id, now) && f.parentId == s.jobs[f.id].parentId && f.options == s.jobs[f.id].options
                                    && f.failedReason == Some(STALLED))
    && (forall c | GivesUpOn(s, c, now) :: exists f :: f in failures && f.id == c)
    && (forall i, j | 0 <= i < j < |failures| :: LeaseOverFirst(s.jobs[failures[i].id], s.jobs[failures[j].id]))
  }

  lemma FailuresAreLost(s: QueueState, now: Time)
    requires Core(s)
    ensures AreLost(s, Failures(s, now), now)
  {
    var ranks := StalledRanks(s, now);
    var ids := Sorted(ranks, ranks.Keys);
    var u := RecoveredState(s, now);
    RecoveredIsCore(s, now);
    FailuresAreDying(s, now);
    forall id | id in ids && id in u.jobs ensures u.jobs[id].id == id { assert WellFormedJob(id, u.jobs[id]); }
    FailedInOrder(u, ids, ranks);
    FoundAreLost(s, u, ids, Failures(s, now), now);
  }

  lemma FoundAreLost(s: QueueState, u: QueueState, ids: seq<JobId>, failures: seq<Job>, now: Time)
    requires Core(s) && u == RecoveredState(s, now) && AreFailures(s, failures, now)
    requires (forall id | id in ids :: id in StalledRanks(s, now)) && FoundInOrder(u, ids, StalledRanks(s, now), failures)
    ensures AreLost(s, failures, now)
  {
    forall k | 0 <= k < |failures| ensures GivesUpOn(s, failures[k].id, now) && failures[k].failedReason == Some(STALLED) {
      assert failures[k] in failures;
      FoundIsLost(s, failures[k], now);
    }
    forall c | GivesUpOn(s, c, now) ensures exists f :: f in failures && f.id == c { StalledMeans(s, now, c); }
    forall i, j | 0 <= i < j < |failures| ensures LeaseOverFirst(s.jobs[failures[i].id], s.jobs[failures[j].id]) {
      LeaseOrderIsRankOrder(s, now, failures[i].id, failures[j].id);
    }
  }

  lemma FoundIsLost(s: QueueState, f: Job, now: Time)
    requires Core(s) && f.id in Dying(s, now) && f.id in RecoveredState(s, now).jobs && f == RecoveredState(s, now).jobs[f.id]
    ensures GivesUpOn(s, f.id, now) && f.failedReason == Some(STALLED)
  {
    StalledMeans(s, now, f.id);
    RecoveredRecord(s, now, f.id);
  }

  lemma {:induction false} LastToNameExists(failures: seq<Job>, r: Reaction, p: JobId)
    requires exists f :: f in failures && f.parentId == Some(p) && ReactionTo(f) == r
    ensures exists k :: LastToName(failures, r, p, k)
    decreases |failures|
  {
    var n := |failures| - 1;
    assert failures == failures[..n] + [failures[n]];
    if failures[n].parentId == Some(p) && ReactionTo(failures[n]) == r {
      assert LastToName(failures, r, p, n);
    } else {
      LastToNameExists(failures[..n], r, p);
      var k :| LastToName(failures[..n], r, p, k);
      assert LastToName(failures, r, p, k);
    }
  }

  // -- The parents ---------------------------------------------------------------------------------------------

  /** `c` is the lost child of `p` whose failure `p` has to report and whose lease ran out last. */
  ghost predicate LastFatal(s: QueueState, c: JobId, p: JobId, now: Time)
  {
    && IsLost(s, c, p, now) && IsFatal(s.jobs[c])
    && forall d | IsLost(s, d, p, now) && IsFatal(s.jobs[d]) && d != c :: LeaseOverFirst(s.jobs[d], s.jobs[c])
  }

  /** A live parent before it is told anything. */
  lemma ParentBeforeTold(s: QueueState, now: Time, p: JobId)
    requires Core(s) && IsLiveJob(s, p) && !GivesUpOn(s, p, now)
    ensures AboutToTell(s, SettledState(s, now), p, now)
  {
    SettledStateIsCore(s, now);
    ParentRecord(s, now, p);
    SettledKeepsLive(s, now, p);
  }

  lemma SettledStateIsCore(s: QueueState, now: Time)
    requires Core(s)
    ensures Core(SettledState(s, now)) && SettledState(s, now).sequence >= s.sequence
  {
    RecoveredIsCore(s, now);
    SettledIsCore(RecoveredState(s, now), Failures(s, now), now);
    RecoveredGrows(s, now);
  }

  lemma RecoveredGrows(s: QueueState, now: Time)
    ensures RecoveredState(s, now).sequence >= s.sequence
  {
    RecoverEachFrame(s, Sorted(StalledRanks(s, now), StalledRanks(s, now).Keys), now);
  }

  lemma ParentRecord(s: QueueState, now: Time, p: JobId)
    requires Core(s) && IsLiveJob(s, p) && !GivesUpOn(s, p, now)
    ensures var u := RecoveredState(s, now);
            && IsLiveJob(u, p) && SameWork(BeforeTold(s.jobs[p], now), u.jobs[p]) && u.jobs[p].returnValue == s.jobs[p].returnValue
            && (IsParked(u, p) <==> IsParked(s, p)) && (!LeaseIsOver(s.jobs[p], now) ==> u.jobs[p] == s.jobs[p])
  {
    RecoveredRecord(s, now, p);
  }

  lemma SettledIsCore(u: QueueState, failures: seq<Job>, now: Time)
    requires Core(u)
    ensures var w := SettleFailures(RemoveAll(u, RemovedAtOnce(failures)), failures, now); Core(w) && w.sequence >= u.sequence
  {
    RemoveAllIsCalm(u, RemovedAtOnce(failures));
    SettleFailuresIsCalm(RemoveAll(u, RemovedAtOnce(failures)), failures, now);
  }

  /**
    A live parent that loses a fail-parent child, and none without a policy, is
    queued again with the failure to report of the one whose lease ran out last.
   */
  lemma RecoveryReportsToParent(s: QueueState, now: Time, p: JobId)
    requires Core(s) && IsLiveJob(s, p) && !GivesUpOn(s, p, now)
    requires exists c :: IsLost(s, c, p, now) && IsFatal(s.jobs[c])
    requires forall c | IsLost(s, c, p, now) :: !IsDamning(s.jobs[c])
    ensures var t := RecoverStalled(s, now).state;
            && p in t.jobs && RunsAgain(BeforeTold(s.jobs[p], now), t.jobs[p], t.jobs[p].deferredFailure, now) && BehindAll(s, t.jobs[p])
            && t.jobs[p].deferredFailure.Some? && LastFatal(s, t.jobs[p].deferredFailure.value, p, now)
  {
    ParentBeforeTold(s, now, p);
    FailuresAreLost(s, now);
    RecoveryIs(s, now);
    LossIsReported(s, SettledState(s, now), Failures(s, now), now, p);
  }

  /** `w` is the state before parents are told. */
  ghost predicate AboutToTell(s: QueueState, w: QueueState, p: JobId, now: Time)
  {
    && IsLiveJob(s, p) && IsLiveJob(w, p) && w.sequence >= s.sequence && Core(w)
    && SameWork(BeforeTold(s.jobs[p], now), w.jobs[p]) && w.jobs[p].returnValue == s.jobs[p].returnValue
    && (IsParked(w, p) <==> IsParked(s, p)) && (!LeaseIsOver(s.jobs[p], now) ==> w.jobs[p] == s.jobs[p])
  }

  lemma LossIsReported(s: QueueState, w: QueueState, failures: seq<Job>, now: Time, p: JobId)
    requires AboutToTell(s, w, p, now) && AreLost(s, failures, now)
    requires exists c :: IsLost(s, c, p, now) && IsFatal(s.jobs[c])
    requires forall c | IsLost(s, c, p, now) :: !IsDamning(s.jobs[c])
    ensures var t := Reactions(w, failures, now);
            && p in t.jobs && RunsAgain(BeforeTold(s.jobs[p], now), t.jobs[p], t.jobs[p].deferredFailure, now) && BehindAll(s, t.jobs[p])
            && t.jobs[p].deferredFailure.Some? && LastFatal(s, t.jobs[p].deferredFailure.value, p, now)
  {
    var c :| IsLost(s, c, p, now) && IsFatal(s.jobs[c]);
    LostIsNamed(s, failures, now, p, c);
    LastToNameExists(failures, Defer, p);
    var k :| LastToName(failures, Defer, p, k);
    NobodyDamns(s, failures, now, p);
    ReportedAfterAll(w, failures, now, p, k);
    LastNamedIsLastFatal(s, failures, now, p, k);
  }

  lemma LostIsNamed(s: QueueState, failures: seq<Job>, now: Time, p: JobId, c: JobId)
    requires AreLost(s, failures, now) && IsLost(s, c, p, now)
    ensures exists f :: f in failures && f.parentId == Some(p) && ReactionTo(f) == ReactionTo(s.jobs[c])
  {
    var f :| f in failures && f.id == c;
    assert f.parentId == Some(p) && ReactionTo(f) == ReactionTo(s.jobs[c]);
  }

  lemma NobodyDamns(s: QueueState, failures: seq<Job>, now: Time, p: JobId)
    requires AreLost(s, failures, now) && forall c | IsLost(s, c, p, now) :: !IsDamning(s.jobs[c])
    ensures forall f | f in failures && f.parentId == Some(p) :: ReactionTo(f) != FailOutright
  {
    forall f | f in failures && f.parentId == Some(p) ensures ReactionTo(f) != FailOutright { assert IsLost(s, f.id, p, now); }
  }

  lemma ReportedAfterAll(w: QueueState, failures: seq<Job>, now: Time, p: JobId, k: nat)
    requires IsLiveJob(w, p) && LastToName(failures, Defer, p, k)
    requires !exists f :: f in failures && f.parentId == Some(p) && ReactionTo(f) == FailOutright
    ensures var t := Reactions(w, failures, now);
            p in t.jobs && RunsAgain(w.jobs[p], t.jobs[p], Some(failures[k].id), now) && BehindAll(w, t.jobs[p])
  {
    var a := ReactAll(w, failures, Defer, now);
    var b := ReactAll(a, failures, Continue, now);
    DeferPhase(w, failures, now, p, k);
    IdlePhase(a, failures, Continue, now, p);
    IdlePhase(b, failures, Release, now, p);
    OutrightPhase(ReactAll(b, failures, Release, now), failures, now, p);
  }

  lemma LastNamedIsLastFatal(s: QueueState, failures: seq<Job>, now: Time, p: JobId, k: nat)
    requires AreLost(s, failures, now) && LastToName(failures, Defer, p, k)
    ensures LastFatal(s, failures[k].id, p, now)
  {
    assert failures[k] in failures;
    forall d | IsLost(s, d, p, now) && IsFatal(s.jobs[d]) && d != failures[k].id ensures LeaseOverFirst(s.jobs[d], s.jobs[failures[k].id]) {
      var f :| f in failures && f.id == d;
      var j :| 0 <= j < |failures| && failures[j] == f;
    }
  }

  /** A parked parent that loses only children that let it go on is queued again, with nothing to report. */
  lemma RecoveryContinuesParent(s: QueueState, now: Time, p: JobId)
    requires Core(s) && IsParked(s, p)
    requires exists c :: IsLost(s, c, p, now) && LetsGoOn(s.jobs[c])
    requires forall c | IsLost(s, c, p, now) :: !IsFatal(s.jobs[c]) && !IsDamning(s.jobs[c])
    ensures var t := RecoverStalled(s, now).state;
            p in t.jobs && RunsAgain(s.jobs[p], t.jobs[p], None, now) && BehindAll(s, t.jobs[p])
  {
    ParentBeforeTold(s, now, p);
    FailuresAreLost(s, now);
    RecoveryIs(s, now);
    LossIsPassedOver(s, SettledState(s, now), Failures(s, now), now, p);
  }

  lemma LossIsPassedOver(s: QueueState, w: QueueState, failures: seq<Job>, now: Time, p: JobId)
    requires AboutToTell(s, w, p, now) && AreLost(s, failures, now) && IsParked(s, p)
    requires exists c :: IsLost(s, c, p, now) && LetsGoOn(s.jobs[c])
    requires forall c | IsLost(s, c, p, now) :: !IsFatal(s.jobs[c]) && !IsDamning(s.jobs[c])
    ensures var t := Reactions(w, failures, now);
            p in t.jobs && RunsAgain(s.jobs[p], t.jobs[p], None, now) && BehindAll(s, t.jobs[p])
  {
    var c :| IsLost(s, c, p, now) && LetsGoOn(s.jobs[c]);
    LostIsNamed(s, failures, now, p, c);
    NobodyDamns(s, failures, now, p);
    forall f | f in failures && f.parentId == Some(p) ensures ReactionTo(f) != Defer { assert IsLost(s, f.id, p, now); }
    ContinuedAfterAll(w, failures, now, p);
  }

  lemma ContinuedAfterAll(w: QueueState, failures: seq<Job>, now: Time, p: JobId)
    requires IsParked(w, p)
    requires exists f :: f in failures && f.parentId == Some(p) && ReactionTo(f) == Continue
    requires !exists f :: f in failures && f.parentId == Some(p) && ReactionTo(f) == FailOutright
    requires !exists f :: f in failures && f.parentId == Some(p) && ReactionTo(f) == Defer
    ensures var t := Reactions(w, failures, now);
            p in t.jobs && RunsAgain(w.jobs[p], t.jobs[p], None, now) && BehindAll(w, t.jobs[p])
  {
    var a := ReactAll(w, failures, Defer, now);
    var b := ReactAll(a, failures, Continue, now);
    ReactAllFrame(w, failures, Defer, now, p);
    ReactAllGrows(w, failures, Defer, now);
    ContinuePhase(a, failures, now, p);
    IdlePhase(b, failures, Release, now, p);
    OutrightPhase(ReactAll(b, failures, Release, now), failures, now, p);
  }

  /** A live parent that loses a child without a policy is failed, for one of these unless a release failed it first. */
  lemma RecoveryFailsParent(s: QueueState, now: Time, p: JobId)
    requires Core(s) && IsLiveJob(s, p) && !GivesUpOn(s, p, now)
    requires exists c :: IsLost(s, c, p, now) && IsDamning(s.jobs[c])
    ensures !IsLiveJob(RecoverStalled(s, now).state, p)
    ensures var t := RecoverStalled(s, now).state;
            (forall c | IsLost(s, c, p, now) :: IsDamning(s.jobs[c])) && p in t.jobs ==>
              exists c :: IsLost(s, c, p, now) && IsDamning(s.jobs[c])
                          && FailedFor(BeforeTold(s.jobs[p], now), t.jobs[p], BecauseOf(c, Some(STALLED)), now)
  {
    ParentBeforeTold(s, now, p);
    FailuresAreLost(s, now);
    RecoveryIs(s, now);
    LossEndsParent(s, SettledState(s, now), Failures(s, now), now, p);
  }

  lemma LossEndsParent(s: QueueState, w: QueueState, failures: seq<Job>, now: Time, p: JobId)
    requires AboutToTell(s, w, p, now) && AreLost(s, failures, now)
    requires exists c :: IsLost(s, c, p, now) && IsDamning(s.jobs[c])
    ensures !IsLiveJob(Reactions(w, failures, now), p)
    ensures var t := Reactions(w, failures, now);
            (forall c | IsLost(s, c, p, now) :: IsDamning(s.jobs[c])) && p in t.jobs ==>
              exists c :: IsLost(s, c, p, now) && IsDamning(s.jobs[c])
                          && FailedFor(BeforeTold(s.jobs[p], now), t.jobs[p], BecauseOf(c, Some(STALLED)), now)
  {
    var c :| IsLost(s, c, p, now) && IsDamning(s.jobs[c]);
    LostIsNamed(s, failures, now, p, c);
    EndedAfterAll(w, failures, now, p);
    if (forall c | IsLost(s, c, p, now) :: IsDamning(s.jobs[c])) && p in Reactions(w, failures, now).jobs {
      forall f | f in failures && f.parentId == Some(p) ensures ReactionTo(f) == FailOutright { assert IsLost(s, f.id, p, now); }
      OutrightAfterAll(w, failures, now, p);
      DamnedBy(s, w, Reactions(w, failures, now), failures, now, p);
    }
  }

  lemma DamnedBy(s: QueueState, w: QueueState, t: QueueState, failures: seq<Job>, now: Time, p: JobId)
    requires AreLost(s, failures, now) && p in w.jobs && p in s.jobs && SameWork(BeforeTold(s.jobs[p], now), w.jobs[p])
    requires OutrightSays(w, t, failures, now, p) && p in t.jobs
    requires exists f :: f in failures && f.parentId == Some(p) && ReactionTo(f) == FailOutright
    ensures exists c :: IsLost(s, c, p, now) && IsDamning(s.jobs[c])
                        && FailedFor(BeforeTold(s.jobs[p], now), t.jobs[p], BecauseOf(c, Some(STALLED)), now)
  {
    var f :| f in failures && f.parentId == Some(p) && ReactionTo(f) == FailOutright
             && FailedFor(w.jobs[p], t.jobs[p], BecauseOf(f.id, f.failedReason), now);
    assert IsLost(s, f.id, p, now) && IsDamning(s.jobs[f.id]);
  }

  lemma OutrightAfterAll(w: QueueState, failures: seq<Job>, now: Time, p: JobId)
    requires IsLiveJob(w, p)
    requires !exists f :: f in failures && f.parentId == Some(p) && ReactionTo(f) == Defer
    requires !exists f :: f in failures && f.parentId == Some(p) && ReactionTo(f) == Continue
    requires !exists f :: f in failures && f.parentId == Some(p) && ReactionTo(f) == Release
    ensures OutrightSays(w, Reactions(w, failures, now), failures, now, p)
  {
    var a := ReactAll(w, failures, Defer, now);
    var b := ReactAll(a, failures, Continue, now);
    ReactAllFrame(w, failures, Defer, now, p);
    ReactAllFrame(a, failures, Continue, now, p);
    ReactAllFrame(b, failures, Release, now, p);
    OutrightPhase(ReactAll(b, failures, Release, now), failures, now, p);
  }

  lemma EndedAfterAll(w: QueueState, failures: seq<Job>, now: Time, p: JobId)
    requires Core(w) && exists f :: f in failures && f.parentId == Some(p) && ReactionTo(f) == FailOutright
    ensures !IsLiveJob(Reactions(w, failures, now), p)
  {
    var a := ReactAll(w, failures, Defer, now);
    var b := ReactAll(a, failures, Continue, now);
    var d := ReactAll(b, failures, Release, now);
    if IsLiveJob(d, p) {
      OutrightPhase(d, failures, now, p);
    } else {
      ReactAllIsCalm(w, failures, Defer, now);
      ReactAllIsCalm(a, failures, Continue, now);
      ReactAllIsCalm(b, failures, Release, now);
      ReactAllIsCalm(d, failures, FailOutright, now);
      var t := ReactAll(d, failures, FailOutright, now);
      if p in t.jobs { assert CalmJob(d.jobs[p], t.jobs[p]); }
    }
  }
}
