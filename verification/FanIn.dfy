/**
  Flow fan-in: a parent that waits for its children is always waiting for
  somebody. This file states the invariant and shows what the helpers that run
  after an operation do to it.
 */
module FanIn {
  import opened Ordering
  import opened JobTypes
  import opened QueueModel
  import opened CoreInvariant
  import opened Operations

  /** Child `c` is stored, unfinished, and listed by `p`. */
  ghost predicate Blocking(s: QueueState, p: JobId, c: JobId)
  {
    p in s.jobs && c in s.jobs[p].childIds && c in s.jobs && !s.jobs[c].state.IsTerminal()
  }

  predicate IsParked(s: QueueState, p: JobId)
  {
    p in s.jobs && s.jobs[p].state == WaitingChildren
  }

  /** No lost wake-up: every parked parent, `asleep` ones excepted, has an unfinished child. */
  ghost predicate Awake(s: QueueState, asleep: set<JobId>)
  {
    forall p | IsParked(s, p) && p !in asleep :: exists c :: Blocking(s, p, c)
  }

  /** Stored children name the parent that lists them. */
  ghost predicate Linked(s: QueueState)
  {
    forall p, c | p in s.jobs && c in s.jobs[p].childIds && c in s.jobs :: s.jobs[c].parentId == Some(p)
  }

  /** No stored job lists `id` as a child. */
  ghost predicate Unlisted(s: QueueState, id: JobId)
  {
    forall p | p in s.jobs :: id !in s.jobs[p].childIds
  }

  /** The terminal failure of `c` would fail its parent outright. */
  predicate FailsParentOutright(s: QueueState, c: JobId, p: JobId)
  {
    c in s.jobs && s.jobs[c].parentId == Some(p) && !s.jobs[c].options.HasFailurePolicy()
  }

  /**
    Nested flows carry failure policies: a job whose failure fails its parent
    outright hangs only below a parent that is nobody's child.
   */
  ghost predicate PolicedNesting(s: QueueState)
  {
    forall p, c | p in s.jobs && FailsParentOutright(s, c, p) :: Unlisted(s, p)
  }

  ghost predicate Structure(s: QueueState) { Linked(s) && PolicedNesting(s) }

  /** The fan-in invariant, up to parents about to be released. */
  ghost predicate FlowUpTo(s: QueueState, asleep: set<JobId>)
  {
    Structure(s) && Awake(s, asleep)
  }

  ghost predicate Flow(s: QueueState) { FlowUpTo(s, {}) }

  // -- Bystanders ---------------------------------------------------------------

  lemma CalmKeepsStructure(s: QueueState, t: QueueState)
    requires Structure(s) && Calm(s, t)
    ensures Structure(t)
    ensures forall id | Unlisted(s, id) :: Unlisted(t, id)
  {
    forall id | Unlisted(s, id) ensures Unlisted(t, id) {
      forall p | p in t.jobs ensures id !in t.jobs[p].childIds { assert CalmJob(s.jobs[p], t.jobs[p]); }
    }
    forall p, c | p in t.jobs && c in t.jobs[p].childIds && c in t.jobs ensures t.jobs[c].parentId == Some(p) {
      assert CalmJob(s.jobs[p], t.jobs[p]) && CalmJob(s.jobs[c], t.jobs[c]);
    }
    forall p, c | p in t.jobs && FailsParentOutright(t, c, p) ensures Unlisted(t, p) {
      assert CalmJob(s.jobs[c], t.jobs[c]);
      assert FailsParentOutright(s, c, p);
    }
  }

  /** No unfinished child was lost, other than those of `asleep` parents. */
  ghost predicate NoLoss(s: QueueState, t: QueueState, asleep: set<JobId>)
  {
    forall p, c | p in t.jobs && p !in asleep && Blocking(s, p, c) :: Blocking(t, p, c)
  }

  lemma NoLossKeepsFlow(s: QueueState, t: QueueState, asleep: set<JobId>)
    requires FlowUpTo(s, asleep) && Calm(s, t) && NoLoss(s, t, asleep)
    ensures FlowUpTo(t, asleep)
  {
    CalmKeepsStructure(s, t);
    forall p | IsParked(t, p) && p !in asleep ensures exists c :: Blocking(t, p, c) {
      assert CalmJob(s.jobs[p], t.jobs[p]);
      assert IsParked(s, p);
      var c :| Blocking(s, p, c);
      assert Blocking(t, p, c);
    }
  }

  /** Nothing is lost while every unfinished job stays stored and unfinished. */
  lemma LiveKeepsFlow(s: QueueState, t: QueueState, asleep: set<JobId>)
    requires FlowUpTo(s, asleep) && Calm(s, t)
    requires forall id | id in s.jobs && !s.jobs[id].state.IsTerminal() :: id in t.jobs && !t.jobs[id].state.IsTerminal()
    ensures FlowUpTo(t, asleep)
  {
    forall p, c | p in t.jobs && p !in asleep && Blocking(s, p, c) ensures Blocking(t, p, c) {
      assert CalmJob(s.jobs[p], t.jobs[p]);
    }
    NoLossKeepsFlow(s, t, asleep);
  }

  lemma PutInOrderRewrites(s: QueueState, id: JobId, job: Job)
    ensures var t := PutInOrder(s, id, job);
            && t.jobs.Keys == s.jobs.Keys + {id}
            && (forall x | x in s.jobs && x != id :: t.jobs[x] == s.jobs[x])
            && t.jobs[id] == job.(enqueuedSeq := t.jobs[id].enqueuedSeq)
  {
  }

  lemma RecordTouchesNoJob(s: QueueState, child: Job)
    ensures var t := RecordWithParent(s, child); t == s.(flowDependencies := t.flowDependencies)
  {
  }

  lemma Widen(s: QueueState, asleep: set<JobId>, more: set<JobId>)
    requires FlowUpTo(s, asleep) && asleep <= more
    ensures FlowUpTo(s, more)
  {
  }

  /** A parent that is not parked, or is blocked, need not be excepted. */
  lemma Settle(s: QueueState, asleep: set<JobId>, p: JobId)
    requires FlowUpTo(s, asleep)
    requires IsParked(s, p) ==> exists c :: Blocking(s, p, c)
    ensures FlowUpTo(s, asleep - {p})
  {
  }

  // -- Removing finished records ----------------------------------------------------

  lemma RemoveKeepsFlow(s: QueueState, ids: set<JobId>, asleep: set<JobId>)
    requires Core(s) && FlowUpTo(s, asleep)
    requires forall id | id in ids && id in s.jobs && !s.jobs[id].state.IsTerminal() && s.jobs[id].parentId.Some?
               :: s.jobs[id].parentId.value in asleep || s.jobs[id].parentId.value in ids
    ensures FlowUpTo(RemoveAll(s, ids), asleep)
  {
    RemoveAllIsCalm(s, ids);
    var t := RemoveAll(s, ids);
    forall p, c | p in t.jobs && p !in asleep && Blocking(s, p, c) ensures Blocking(t, p, c) {
      assert s.jobs[c].parentId == Some(p);
    }
    NoLossKeepsFlow(s, t, asleep);
  }

  lemma NewestFirstContains(s: QueueState, ids: set<JobId>, state: JobState)
    requires ids <= FinishedRanks(s, state).Keys
    ensures forall id :: id in NewestFirst(s, ids, state) <==> id in ids
  {
    ReverseContains(Sorted(FinishedRanks(s, state), ids));
  }

  lemma ElementsTake(s: seq<JobId>, n: nat)
    ensures forall x | x in Elements(Take(s, n)) :: x in s
    ensures forall x | x in Elements(Drop(s, n)) :: x in s
  {
  }

  lemma AgePassEvictsFinished(s: QueueState, state: JobState, retention: JobRetention, now: Time, id: JobId)
    requires id in AgePassEvicts(s, state, retention, now)
    ensures id in s.jobs && s.jobs[id].state == state && s.jobs[id].finishedAt.Some?
  {
    var expired := Expired(s, state, Earlier(now, retention.age.value));
    NewestFirstContains(s, expired, state);
    ElementsTake(NewestFirst(s, expired, state), if retention.limit.Some? then retention.limit.value else 1000);
  }

  lemma CountPassEvictsFinished(s: QueueState, state: JobState, retention: JobRetention, id: JobId)
    requires id in CountPassEvicts(s, state, retention)
    ensures id in s.jobs && s.jobs[id].state == state && s.jobs[id].finishedAt.Some?
  {
    NewestFirstContains(s, FinishedRanks(s, state).Keys, state);
    ElementsTake(NewestFirst(s, FinishedRanks(s, state).Keys, state), retention.count.value);
  }

  lemma EvictsOnlyFinished(s: QueueState, state: JobState, retention: JobRetention, now: Time)
    ensures forall id | id in AgePassEvicts(s, state, retention, now) :: id in s.jobs && s.jobs[id].state == state
    ensures forall id | id in CountPassEvicts(s, state, retention) :: id in s.jobs && s.jobs[id].state == state
  {
    forall id | id in AgePassEvicts(s, state, retention, now) ensures id in s.jobs && s.jobs[id].state == state {
      AgePassEvictsFinished(s, state, retention, now, id);
    }
    forall id | id in CountPassEvicts(s, state, retention) ensures id in s.jobs && s.jobs[id].state == state {
      CountPassEvictsFinished(s, state, retention, id);
    }
  }

  lemma ApplyRetentionKeepsFlow(s: QueueState, state: JobState, retention: JobRetention, now: Time, asleep: set<JobId>)
    requires Core(s) && FlowUpTo(s, asleep) && state.IsTerminal()
    ensures FlowUpTo(ApplyRetention(s, state, retention, now), asleep)
  {
    var aged := AgePass(s, state, retention, now);
    RetentionOnlyRemoves(s, state, retention, now);
    EvictsOnlyFinished(s, state, retention, now);
    RemoveAllIsCalm(s, AgePassEvicts(s, state, retention, now));
    RemoveKeepsFlow(s, AgePassEvicts(s, state, retention, now), asleep);
    RetentionOnlyRemoves(aged, state, retention, now);
    EvictsOnlyFinished(aged, state, retention, now);
    RemoveKeepsFlow(aged, CountPassEvicts(aged, state, retention), asleep);
  }

  lemma RetainFinishedKeepsFlow(s: QueueState, id: JobId, job: Job, now: Time, asleep: set<JobId>)
    requires Core(s) && FlowUpTo(s, asleep)
    requires id in s.jobs ==> s.jobs[id].state.IsTerminal()
    ensures FlowUpTo(RetainFinished(s, id, job, now), asleep)
  {
    RetainFinishedCases(s, id, job, now);
    var t := RetainFinished(s, id, job, now);
    if t == s {
    } else if t == Remove(s, id) {
      RemoveIsRemoveAll(s, id);
      RemoveKeepsFlow(s, {id}, asleep);
    } else {
      var state: JobState, retention :| state.IsTerminal() && t == ApplyRetention(s, state, retention, now);
      ApplyRetentionKeepsFlow(s, state, retention, now, asleep);
    }
  }

  /** Retention evicts finished records only. */
  lemma RetentionSparesLive(s: QueueState, id: JobId, job: Job, now: Time, x: JobId)
    requires id in s.jobs ==> s.jobs[id].state.IsTerminal()
    requires x in s.jobs && !s.jobs[x].state.IsTerminal()
    ensures var t := RetainFinished(s, id, job, now); x in t.jobs && t.jobs[x] == s.jobs[x]
  {
    RetainFinishedCases(s, id, job, now);
    var t := RetainFinished(s, id, job, now);
    if t == s {
    } else if t == Remove(s, id) {
    } else {
      var state: JobState, retention :| state.IsTerminal() && t == ApplyRetention(s, state, retention, now);
      RetentionOnlyRemoves(s, state, retention, now);
      EvictsOnlyFinished(s, state, retention, now);
      var aged := AgePass(s, state, retention, now);
      RetentionOnlyRemoves(aged, state, retention, now);
      EvictsOnlyFinished(aged, state, retention, now);
    }
  }

  lemma RetainedSame(s: QueueState, id: JobId, job: Job, now: Time)
    ensures var t := RetainFinished(s, id, job, now); forall x | x in t.jobs :: x in s.jobs && t.jobs[x] == s.jobs[x]
  {
    RetainFinishedCases(s, id, job, now);
    var t := RetainFinished(s, id, job, now);
    if t != s && t != Remove(s, id) {
      var state: JobState, retention :| state.IsTerminal() && t == ApplyRetention(s, state, retention, now);
      RetentionOnlyRemoves(s, state, retention, now);
      RetentionOnlyRemoves(AgePass(s, state, retention, now), state, retention, now);
    }
  }

  lemma FailParentFrame(s: QueueState, p: JobId, reason: string, now: Time)
    ensures var t := FailParent(s, p, reason, now);
            && (forall x | x in s.jobs && !s.jobs[x].state.IsTerminal() && x != p :: x in t.jobs && t.jobs[x] == s.jobs[x])
            && (forall x | x in t.jobs && x != p :: x in s.jobs && t.jobs[x] == s.jobs[x])
            && (p in t.jobs ==> t.jobs[p].state.IsTerminal())
  {
    if p in s.jobs && !s.jobs[p].state.IsTerminal() {
      var failed := FailedParent(s.jobs[p], reason, now);
      var stored := Put(s, p, failed);
      forall x | x in s.jobs && !s.jobs[x].state.IsTerminal() && x != p
        ensures x in FailParent(s, p, reason, now).jobs && FailParent(s, p, reason, now).jobs[x] == s.jobs[x]
      {
        RetentionSparesLive(stored, p, failed, now, x);
      }
      RetainedSame(stored, p, failed, now);
    }
  }

  // -- Parents ------------------------------------------------------------------------

  lemma FailedParentKeepsFlow(s: QueueState, parentId: JobId, failed: Job, now: Time, asleep: set<JobId>)
    requires Core(s) && FlowUpTo(s, asleep) && parentId in s.jobs && Unlisted(s, parentId)
    requires CalmJob(s.jobs[parentId], failed) && WellFormedJob(parentId, failed)
    requires failed.enqueuedSeq == s.jobs[parentId].enqueuedSeq && failed.state.IsTerminal()
    ensures FlowUpTo(RetainFinished(Put(s, parentId, failed), parentId, failed, now), asleep)
  {
    var t := Put(s, parentId, failed);
    PutIsCalm(s, parentId, failed);
    NoLossKeepsFlow(s, t, asleep);
    RetainFinishedKeepsFlow(t, parentId, failed, now, asleep);
  }

  lemma FailParentKeepsFlow(s: QueueState, parentId: JobId, reason: string, now: Time, asleep: set<JobId>)
    requires Core(s) && FlowUpTo(s, asleep)
    requires parentId in s.jobs ==> Unlisted(s, parentId)
    ensures FlowUpTo(FailParent(s, parentId, reason, now), asleep - {parentId})
  {
    if parentId in s.jobs && !s.jobs[parentId].state.IsTerminal() {
      assert WellFormedJob(parentId, s.jobs[parentId]);
      FailedParentKeepsFlow(s, parentId, FailedParent(s.jobs[parentId], reason, now), now, asleep);
    }
    FailParentUnparks(s, parentId, reason, now);
    Settle(FailParent(s, parentId, reason, now), asleep, parentId);
  }

  lemma FailParentUnparks(s: QueueState, parentId: JobId, reason: string, now: Time)
    requires Core(s)
    ensures !IsParked(FailParent(s, parentId, reason, now), parentId)
  {
    if parentId in s.jobs && !s.jobs[parentId].state.IsTerminal() {
      assert WellFormedJob(parentId, s.jobs[parentId]);
      var failed := FailedParent(s.jobs[parentId], reason, now);
      PutIsCalm(s, parentId, failed);
      RetainFinishedIsCalm(Put(s, parentId, failed), parentId, failed, now);
    }
  }

  lemma ResumedIsCalm(s: QueueState, parentId: JobId, deferred: Option<JobId>, now: Time)
    requires Core(s) && parentId in s.jobs && !s.jobs[parentId].state.IsTerminal()
    ensures var t := PutInOrder(s, parentId, Resumed(s.jobs[parentId], deferred, now));
            && Core(t) && Calm(s, t) && SameIndexes(s, t) && !IsParked(t, parentId) && t.jobs.Keys == s.jobs.Keys
            && (forall id | id in s.jobs :: t.jobs[id].state.IsTerminal() == s.jobs[id].state.IsTerminal())
  {
    assert WellFormedJob(parentId, s.jobs[parentId]);
    PutInOrderIsCalm(s, parentId, Resumed(s.jobs[parentId], deferred, now));
    PutInOrderRewrites(s, parentId, Resumed(s.jobs[parentId], deferred, now));
  }

  /** A parent made runnable. */
  lemma ResumeKeepsFlow(s: QueueState, parentId: JobId, deferred: Option<JobId>, now: Time, asleep: set<JobId>)
    requires Core(s) && FlowUpTo(s, asleep)
    requires parentId in s.jobs && !s.jobs[parentId].state.IsTerminal()
    ensures FlowUpTo(PutInOrder(s, parentId, Resumed(s.jobs[parentId], deferred, now)), asleep - {parentId})
  {
    var t := PutInOrder(s, parentId, Resumed(s.jobs[parentId], deferred, now));
    ResumedIsCalm(s, parentId, deferred, now);
    LiveKeepsFlow(s, t, asleep);
    Settle(t, asleep, parentId);
  }

  lemma ContinueParentKeepsFlow(s: QueueState, parentId: JobId, now: Time, asleep: set<JobId>)
    requires Core(s) && FlowUpTo(s, asleep)
    ensures FlowUpTo(ContinueParent(s, parentId, now), asleep - {parentId})
  {
    if IsParked(s, parentId) { ResumeKeepsFlow(s, parentId, None, now, asleep); }
    else { Settle(s, asleep, parentId); }
  }

  lemma DeferParentKeepsFlow(s: QueueState, parentId: JobId, childId: JobId, now: Time, asleep: set<JobId>)
    requires Core(s) && FlowUpTo(s, asleep)
    ensures FlowUpTo(DeferParentFailure(s, parentId, childId, now), asleep - {parentId})
  {
    if parentId in s.jobs && !s.jobs[parentId].state.IsTerminal() { ResumeKeepsFlow(s, parentId, Some(childId), now, asleep); }
    else { Settle(s, asleep, parentId); }
  }

  // -- The readiness scan ---------------------------------------------------------------

  /** What the result of a scan says about the children. */
  ghost predicate ScanSays(s: QueueState, childIds: seq<JobId>, r: Readiness)
  {
    && (r.Blocked? <==> exists c :: c in childIds && c in s.jobs && !s.jobs[c].state.IsTerminal())
    && (r.Ready? && r.failure.Some? ==>
          var c := r.failure.value;
          c in childIds && c in s.jobs && s.jobs[c].state == Failed && !s.jobs[c].options.HasFailurePolicy())
    && (r.Ready? && r.deferred.Some? ==>
          var c := r.deferred.value;
          c in childIds && c in s.jobs && s.jobs[c].state == Failed && s.jobs[c].options.failParentOnFailure)
    && (r.Ready? ==>
          && (r.deferred.None? <==> forall c | c in childIds && c in s.jobs && s.jobs[c].state == Failed :: !s.jobs[c].options.failParentOnFailure)
          && (r.failure.None? <==> forall c | c in childIds && c in s.jobs && s.jobs[c].state == Failed :: s.jobs[c].options.HasFailurePolicy()))
  }

  lemma ScanSaysNext(s: QueueState, childIds: seq<JobId>, earlier: Readiness, id: JobId)
    requires ScanSays(s, childIds, earlier)
    ensures ScanSays(s, childIds + [id], ScanNext(s, earlier, id))
  {
  }

  /** The scan blocks exactly on an unfinished stored child, and names only failed ones. */
  lemma {:induction false} ScanMeaning(s: QueueState, childIds: seq<JobId>)
    ensures ScanSays(s, childIds, ScanChildren(s, childIds))
    decreases |childIds|
  {
    if childIds != [] {
      var n := |childIds| - 1;
      ScanMeaning(s, childIds[..n]);
      ScanSaysNext(s, childIds[..n], ScanChildren(s, childIds[..n]), childIds[n]);
      assert childIds == childIds[..n] + [childIds[n]];
    }
  }

  lemma BlockedIff(s: QueueState, p: JobId)
    requires p in s.jobs
    ensures ScanChildren(s, s.jobs[p].childIds).Blocked? <==> exists c :: Blocking(s, p, c)
  {
    ScanMeaning(s, s.jobs[p].childIds);
    if c :| c in s.jobs[p].childIds && c in s.jobs && !s.jobs[c].state.IsTerminal() { assert Blocking(s, p, c); }
  }

  lemma ReleaseParentKeepsFlow(s: QueueState, parentId: JobId, now: Time, asleep: set<JobId>)
    requires Core(s) && FlowUpTo(s, asleep)
    ensures FlowUpTo(ReleaseParent(s, parentId, now), asleep - {parentId})
  {
    if !IsParked(s, parentId) {
      Settle(s, asleep, parentId);
    } else {
      ScanMeaning(s, s.jobs[parentId].childIds);
      match ScanChildren(s, s.jobs[parentId].childIds)
      case Blocked =>
        var c :| c in s.jobs[parentId].childIds && c in s.jobs && !s.jobs[c].state.IsTerminal();
        assert Blocking(s, parentId, c);
        Settle(s, asleep, parentId);
      case Ready(Some(child), _) => DeferParentKeepsFlow(s, parentId, child, now, asleep);
      case Ready(None, Some(child)) =>
        assert s.jobs[child].parentId == Some(parentId);
        assert FailsParentOutright(s, child, parentId);
        FailParentKeepsFlow(s, parentId,
          ChildFailureReason(child, if child in s.jobs then s.jobs[child].failedReason else None), now, asleep);
      case Ready(None, None) => ContinueParentKeepsFlow(s, parentId, now, asleep);
    }
  }

  lemma {:induction false} ReleaseParentsKeepsFlow(s: QueueState, parentIds: seq<JobId>, now: Time, asleep: set<JobId>)
    requires Core(s) && FlowUpTo(s, asleep)
    ensures FlowUpTo(ReleaseParents(s, parentIds, now), asleep - Elements(parentIds))
    decreases |parentIds|
  {
    if parentIds == [] {
      assert asleep - Elements(parentIds) == asleep;
    } else {
      var n := |parentIds| - 1;
      ReleaseParentsIsCalm(s, parentIds[..n], now);
      ReleaseParentsKeepsFlow(s, parentIds[..n], now, asleep);
      ReleaseParentKeepsFlow(ReleaseParents(s, parentIds[..n], now), parentIds[n], now, asleep - Elements(parentIds[..n]));
      assert parentIds == parentIds[..n] + [parentIds[n]];
      assert asleep - Elements(parentIds) == asleep - Elements(parentIds[..n]) - {parentIds[n]};
    }
  }

  lemma ResumedIsNotParked(s: QueueState, parentId: JobId, deferred: Option<JobId>, now: Time)
    requires parentId in s.jobs
    ensures !IsParked(PutInOrder(s, parentId, Resumed(s.jobs[parentId], deferred, now)), parentId)
  {
  }

  /** `release_parent_if_ready_locked` moves a parked parent on exactly when no stored child is unfinished. */
  lemma ReleaseIffReady(s: QueueState, parentId: JobId, now: Time)
    requires Core(s) && IsParked(s, parentId)
    ensures IsParked(ReleaseParent(s, parentId, now), parentId) <==> exists c :: Blocking(s, parentId, c)
  {
    BlockedIff(s, parentId);
    match ScanChildren(s, s.jobs[parentId].childIds)
    case Blocked =>
    case Ready(Some(child), _) => ResumedIsNotParked(s, parentId, Some(child), now);
    case Ready(None, Some(child)) =>
      FailParentUnparks(s, parentId,
        ChildFailureReason(child, if child in s.jobs then s.jobs[child].failedReason else None), now);
    case Ready(None, None) => ResumedIsNotParked(s, parentId, None, now);
  }

  // -- Reactions to a failed child -----------------------------------------------------------

  /** If `child`'s failure fails its parent outright, that parent is nobody's child. */
  ghost predicate MayFailOutright(s: QueueState, child: Job)
  {
    child.parentId.Some? && child.parentId.value in s.jobs && ReactionTo(child) == FailOutright
    ==> Unlisted(s, child.parentId.value)
  }

  lemma ReactKeepsFlow(s: QueueState, child: Job, now: Time, asleep: set<JobId>)
    requires Core(s) && FlowUpTo(s, asleep) && MayFailOutright(s, child)
    ensures child.parentId.Some? ==> FlowUpTo(React(s, child, now), asleep - {child.parentId.value})
    ensures child.parentId.None? ==> FlowUpTo(React(s, child, now), asleep)
  {
    if child.parentId.Some? {
      var parentId := child.parentId.value;
      match ReactionTo(child)
      case Defer => DeferParentKeepsFlow(s, parentId, child.id, now, asleep);
      case Continue => ContinueParentKeepsFlow(s, parentId, now, asleep);
      case Release => ReleaseParentKeepsFlow(s, parentId, now, asleep);
      case FailOutright => FailParentKeepsFlow(s, parentId, ChildFailureReason(child.id, child.failedReason), now, asleep);
    }
  }
}
