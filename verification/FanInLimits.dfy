/**
  Where fan-in fails, for every flow and every id: exactly when an operation that
  ends jobs leaves some parent waiting for nobody. Nested flows and reused ids are
  the two ways to get there.
 */
module FanInLimits {
  import opened Ordering
  import opened JobTypes
  import opened QueueModel
  import opened CoreInvariant
  import opened Operations
  import opened FanIn
  import opened CoreLifecycle
  import opened RepeatSuccession

  // -- What ends and what it strands -----------------------------------------------------------

  predicate IsLive(s: QueueState, x: JobId) { x in s.jobs && !s.jobs[x].state.IsTerminal() }

  /** `g` waits for nobody but jobs among `ends`. */
  ghost predicate Strands(s: QueueState, g: JobId, ends: set<JobId>)
  {
    IsParked(s, g) && g !in ends && forall c | Blocking(s, g, c) :: c in ends
  }

  /** A waiting grandparent whose only unfinished child is `p`. */
  ghost predicate Orphans(s: QueueState, g: JobId, p: JobId)
  {
    Blocking(s, g, p) && Strands(s, g, {p})
  }

  /** `t` is `s` after the jobs `ends` ended and the jobs `moved` went on without waiting for children. */
  ghost predicate Ended(s: QueueState, t: QueueState, ends: set<JobId>, moved: set<JobId>)
  {
    && (forall x | x in ends :: !IsLive(t, x))
    && (forall x | x in moved && x !in ends :: IsLive(s, x) && IsLive(t, x) && !IsParked(t, x))
    && (forall x | IsLive(s, x) && x !in ends && x !in moved :: x in t.jobs && t.jobs[x] == s.jobs[x])
    && (forall x | x in t.jobs && x in s.jobs && x !in ends && x !in moved :: t.jobs[x] == s.jobs[x])
    && (forall x | x in t.jobs && x !in s.jobs :: Unlisted(s, x) && !IsParked(t, x))
  }

  /** A wake-up is lost exactly when what ended was all that some parent waited for. */
  lemma EndsLoseWakeUpIff(s: QueueState, t: QueueState, ends: set<JobId>, moved: set<JobId>)
    requires Ended(s, t, ends, moved)
    ensures Awake(t, {}) <==> !exists g :: g !in moved && Strands(s, g, ends)
  {
    if g :| g !in moved && Strands(s, g, ends) {
      assert IsLive(s, g) && t.jobs[g] == s.jobs[g];
      forall c ensures !Blocking(t, g, c) {
        if Blocking(t, g, c) { StillBlocks(s, t, ends, moved, g, c); }
      }
      assert IsParked(t, g) && g !in {};
    } else {
      forall g | IsParked(t, g) && g !in {} ensures exists c :: Blocking(t, g, c) {
        assert IsLive(t, g) && g !in ends && g !in moved && g in s.jobs;
        assert !Strands(s, g, ends);
        var c :| Blocking(s, g, c) && c !in ends;
        assert IsLive(s, c) && IsLive(t, c);
        assert Blocking(t, g, c);
      }
    }
  }

  /** Whoever blocks an untouched parent afterwards blocked it before. */
  lemma StillBlocks(s: QueueState, t: QueueState, ends: set<JobId>, moved: set<JobId>, g: JobId, c: JobId)
    requires Ended(s, t, ends, moved) && Blocking(t, g, c) && g in s.jobs && t.jobs[g] == s.jobs[g]
    ensures c !in ends && Blocking(s, g, c)
  {
    assert IsLive(t, c);
    assert c in s.jobs;
    if c !in moved { assert t.jobs[c] == s.jobs[c]; }
  }

  lemma EndedTwice(s: QueueState, t: QueueState, u: QueueState, e: set<JobId>, m: set<JobId>, f: set<JobId>, n: set<JobId>)
    requires Ended(s, t, e, m) && Ended(t, u, f, n) && u.jobs.Keys <= t.jobs.Keys && n <= s.jobs.Keys
    ensures Ended(s, u, e + f, m + n)
  {
    forall x | x in e ensures !IsLive(u, x) {
      if x in u.jobs { EndedStays(t, u, f, n, x); }
    }
    forall x | x in m + n && x !in e + f ensures IsLive(s, x) && IsLive(u, x) && !IsParked(u, x) {
      if x in n { assert IsLive(t, x); } else { assert IsLive(t, x) && u.jobs[x] == t.jobs[x]; }
    }
  }

  lemma EndedStays(t: QueueState, u: QueueState, f: set<JobId>, n: set<JobId>, x: JobId)
    requires Ended(t, u, f, n) && x in u.jobs && x in t.jobs && !IsLive(t, x)
    ensures !IsLive(u, x)
  {
  }

  lemma NothingEnded(s: QueueState)
    ensures Ended(s, s, {}, {})
  {
  }

  // -- One parent ---------------------------------------------------------------------------------

  /** Failing a live parent, for whatever reason and on whatever route, strands its own waiting parents and nobody else. */
  lemma FailParentEnds(s: QueueState, p: JobId, reason: string, now: Time)
    requires IsLive(s, p)
    ensures Ended(s, FailParent(s, p, reason, now), {p}, {}) && FailParent(s, p, reason, now).jobs.Keys <= s.jobs.Keys
  {
    FailParentFrame(s, p, reason, now);
  }

  lemma FailParentLosesWakeUpIff(s: QueueState, p: JobId, reason: string, now: Time)
    requires IsLive(s, p)
    ensures Awake(FailParent(s, p, reason, now), {}) <==> !exists g :: Strands(s, g, {p})
  {
    FailParentEnds(s, p, reason, now);
    EndsLoseWakeUpIff(s, FailParent(s, p, reason, now), {p}, {});
    if g :| Strands(s, g, {p}) { assert g !in {} && Strands(s, g, {p}); }
    if g :| g !in {} && Strands(s, g, {p}) { assert Strands(s, g, {p}); }
  }

  /** Where everybody is awake, that is a waiting grandparent with no other unfinished child. */
  lemma StrandedAreOrphans(s: QueueState, p: JobId, g: JobId)
    requires Awake(s, {})
    ensures Strands(s, g, {p}) <==> Orphans(s, g, p)
  {
    if Strands(s, g, {p}) {
      assert g !in {};
      var c :| Blocking(s, g, c);
    }
  }

  /** A release would fail the parent: nothing blocks it, no child defers the failure, and some child failed without a policy. */
  ghost predicate ReadyToFail(s: QueueState, p: JobId)
  {
    && IsParked(s, p)
    && (forall c | c in s.jobs[p].childIds && c in s.jobs ::
          s.jobs[c].state.IsTerminal() && (s.jobs[c].state == Failed ==> !s.jobs[c].options.failParentOnFailure))
    && exists c :: c in s.jobs[p].childIds && c in s.jobs && s.jobs[c].state == Failed && !s.jobs[c].options.HasFailurePolicy()
  }

  lemma ReadyToFailIff(s: QueueState, p: JobId)
    requires IsParked(s, p)
    ensures var r := ScanChildren(s, s.jobs[p].childIds);
            ReadyToFail(s, p) <==> r.Ready? && r.deferred.None? && r.failure.Some?
  {
    ScanMeaning(s, s.jobs[p].childIds);
  }

  function Only(yes: bool, p: JobId): set<JobId> { if yes then {p} else {} }

  /** A parked parent that resumes moves on. */
  lemma ResumeEnds(s: QueueState, p: JobId, deferred: Option<JobId>, now: Time)
    requires IsLive(s, p)
    ensures Ended(s, PutInOrder(s, p, Resumed(s.jobs[p], deferred, now)), {}, {p})
  {
  }

  ghost predicate ReleaseMoves(s: QueueState, p: JobId) { IsParked(s, p) && !ReadyToFail(s, p) && !exists c :: Blocking(s, p, c) }

  lemma ReleaseEnds(s: QueueState, p: JobId, now: Time)
    ensures var t := ReleaseParent(s, p, now);
            Ended(s, t, Only(ReadyToFail(s, p), p), Only(ReleaseMoves(s, p), p)) && t.jobs.Keys <= s.jobs.Keys
  {
    if IsParked(s, p) {
      ReadyToFailIff(s, p);
      BlockedIff(s, p);
      match ScanChildren(s, s.jobs[p].childIds)
      case Blocked => NothingEnded(s);
      case Ready(Some(c), _) => ResumeEnds(s, p, Some(c), now);
      case Ready(None, Some(c)) => FailParentEnds(s, p, ChildFailureReason(c, if c in s.jobs then s.jobs[c].failedReason else None), now);
      case Ready(None, None) => ResumeEnds(s, p, None, now);
    } else {
      NothingEnded(s);
    }
  }

  /** Releasing a parent, after whatever operation, strands exactly the parents of one it fails. */
  lemma ReleaseLosesWakeUpIff(s: QueueState, p: JobId, now: Time)
    ensures Awake(ReleaseParent(s, p, now), {}) <==> !exists g :: g != p && Strands(s, g, Only(ReadyToFail(s, p), p))
  {
    var t, ends, moved := ReleaseParent(s, p, now), Only(ReadyToFail(s, p), p), Only(ReleaseMoves(s, p), p);
    ReleaseEnds(s, p, now);
    EndsLoseWakeUpIff(s, t, ends, moved);
    assert !ReleaseMoves(s, p) ==> !Strands(s, p, ends);
    forall g ensures g !in moved && Strands(s, g, ends) <==> g != p && Strands(s, g, ends) {}
  }

  // -- One failed child -------------------------------------------------------------------------------

  /** The reaction to the failed `child` fails its parent `p`. */
  ghost predicate ReactionFails(s: QueueState, child: Job, p: JobId)
  {
    (ReactionTo(child) == FailOutright && IsLive(s, p)) || (ReactionTo(child) == Release && ReadyToFail(s, p))
  }

  /** The reaction moves the parent on. */
  ghost predicate ReactionMoves(s: QueueState, child: Job, p: JobId)
  {
    match ReactionTo(child)
    case Defer => IsLive(s, p)
    case Continue => IsParked(s, p)
    case Release => ReleaseMoves(s, p)
    case FailOutright => false
  }

  lemma ReactEnds(s: QueueState, child: Job, p: JobId, now: Time)
    requires child.parentId == Some(p)
    ensures var t := React(s, child, now);
            Ended(s, t, Only(ReactionFails(s, child, p), p), Only(ReactionMoves(s, child, p), p)) && t.jobs.Keys <= s.jobs.Keys
  {
    match ReactionTo(child)
    case Defer => if IsLive(s, p) { ResumeEnds(s, p, Some(child.id), now); } else { NothingEnded(s); }
    case Continue => if IsParked(s, p) { ResumeEnds(s, p, None, now); } else { NothingEnded(s); }
    case Release => ReleaseEnds(s, p, now);
    case FailOutright =>
      if IsLive(s, p) { FailParentEnds(s, p, ChildFailureReason(child.id, child.failedReason), now); } else { NothingEnded(s); }
  }

  /** Reacting to a failed child, as failing it and recovering it do, strands exactly the parents of one it fails. */
  lemma ReactLosesWakeUpIff(s: QueueState, child: Job, p: JobId, now: Time)
    requires child.parentId == Some(p)
    ensures Awake(React(s, child, now), {}) <==> !exists g :: !(g == p && ReactionMoves(s, child, p)) && Strands(s, g, Only(ReactionFails(s, child, p), p))
  {
    var ends, moved := Only(ReactionFails(s, child, p), p), Only(ReactionMoves(s, child, p), p);
    ReactEnds(s, child, p, now);
    EndsLoseWakeUpIff(s, React(s, child, now), ends, moved);
    forall g ensures g !in moved && Strands(s, g, ends) <==> !(g == p && ReactionMoves(s, child, p)) && Strands(s, g, ends) {}
  }

  // -- One job ------------------------------------------------------------------------------------------

  /** A job that ends, whatever retention then drops. */
  lemma JobEnds(s: QueueState, id: JobId, ended: Job, now: Time)
    requires id in s.jobs && ended.state.IsTerminal()
    ensures Ended(s, RetainedState(s, id, ended, now), {id}, {}) && RetainedState(s, id, ended, now).jobs.Keys <= s.jobs.Keys
  {
    var recorded := RecordWithParent(Put(s, id, ended), ended);
    RecordTouchesNoJob(Put(s, id, ended), ended);
    RetainedSame(recorded, id, ended, now);
    forall x | IsLive(s, x) && x != id ensures x in RetainedState(s, id, ended, now).jobs {
      RetentionSparesLive(recorded, id, ended, now, x);
    }
  }

  /** A job stored anew, under an id nobody lists, strands nobody. */
  lemma InsertEnds(s: QueueState, t: QueueState, job: Job, ends: set<JobId>)
    requires Ended(s, t, ends, {}) && job.id !in s.jobs && job.id !in t.jobs && job.id !in ends && Unlisted(s, job.id) && job.state != WaitingChildren
    ensures Ended(s, Insert(t, job), ends, {})
  {
    JobAddedEnds(s, t, Insert(t, job), job.id, ends);
  }

  lemma JobAddedEnds(s: QueueState, t: QueueState, u: QueueState, id: JobId, ends: set<JobId>)
    requires Ended(s, t, ends, {}) && id !in s.jobs && id !in t.jobs && id !in ends && Unlisted(s, id)
    requires u.jobs.Keys == t.jobs.Keys + {id} && !IsParked(u, id) && forall x | x in t.jobs :: u.jobs[x] == t.jobs[x]
    ensures Ended(s, u, ends, {})
  {
    forall x | x in ends ensures !IsLive(u, x) { assert !IsLive(t, x); }
  }

  // -- Completion ------------------------------------------------------------------------------------------

  /** What completing `id` ends: the job, and its parent if the release fails that. */
  ghost function CompletionEnds(s: QueueState, id: JobId, uuid: JobId): set<JobId>
    requires id in s.jobs
  {
    {id} + if ParentFails(s, id, uuid) then {s.jobs[id].parentId.value} else {}
  }

  /** The job completed, retained and succeeded. */
  ghost function SucceededState(s: QueueState, id: JobId, value: Value, uuid: JobId, cronNext: Option<Time>, now: Time): QueueState
    requires id in s.jobs
  {
    var completed := CompletedJob(s.jobs[id], value, now);
    var next := NextRepeatJob(s.queue, completed, uuid, cronNext, now);
    if next.Some? then Insert(RetainedState(s, id, completed, now), next.value) else RetainedState(s, id, completed, now)
  }

  lemma SucceededEnds(s: QueueState, id: JobId, value: Value, uuid: JobId, cronNext: Option<Time>, now: Time)
    requires Core(s) && id in s.jobs && s.jobs[id].state == Active && uuid != "" && uuid !in s.jobs && Unlisted(s, uuid)
    ensures Ended(s, SucceededState(s, id, value, uuid, cronNext, now), {id}, {})
  {
    var completed := CompletedJob(s.jobs[id], value, now);
    assert WellFormedJob(id, s.jobs[id]);
    JobEnds(s, id, completed, now);
    if NextRepeatJob(s.queue, completed, uuid, cronNext, now).Some? {
      NextRepeatJobIsNew(s.queue, completed, uuid, cronNext, now);
      InsertEnds(s, RetainedState(s, id, completed, now), NextRepeatJob(s.queue, completed, uuid, cronNext, now).value, {id});
    }
  }

  lemma SucceededIs(s: QueueState, id: JobId, value: Value, uuid: JobId, cronNext: Option<Time>, now: Time)
    requires Core(s) && id in s.jobs && s.jobs[id].state == Active && uuid != "" && uuid !in s.jobs
    ensures Succeeded(s, SucceededState(s, id, value, uuid, cronNext, now), id, uuid)
  {
    var completed := CompletedJob(s.jobs[id], value, now);
    assert WellFormedJob(id, s.jobs[id]);
    CompletedKeeps(s, id, value, now);
    CompletedFrame(s, id, completed, now);
    if NextRepeatJob(s.queue, completed, uuid, cronNext, now).Some? {
      SuccessorStored(s, RetainedState(s, id, completed, now), id, completed, uuid, cronNext, now);
    }
  }

  /** After that, the parent is ready to fail exactly when that could be foreseen; and if it only waited for `id`, it moves on. */
  lemma SucceededParent(s: QueueState, w: QueueState, id: JobId, uuid: JobId, p: JobId)
    requires Succeeded(s, w, id, uuid) && Ended(s, w, {id}, {}) && Unlisted(s, uuid) && s.jobs[id].parentId == Some(p)
    ensures ReadyToFail(w, p) <==> ParentFails(s, id, uuid)
    ensures Strands(s, p, CompletionEnds(s, id, uuid)) ==> ReleaseMoves(w, p)
  {
    ReleaseFailsIff(s, w, id, uuid, p);
    if IsParked(w, p) { ReadyToFailIff(w, p); }
    if Strands(s, p, CompletionEnds(s, id, uuid)) {
      assert IsLive(s, p) && w.jobs[p] == s.jobs[p];
      forall c ensures !Blocking(w, p, c) {
        if Blocking(w, p, c) { StillBlocks(s, w, {id}, {}, p, c); }
      }
    }
  }

  /**
    Completing a job, in any flow and under any id, loses a wake-up if and only
    if some parent other than the job's own waited for nobody but the job and
    the parent that its completion fails.
   */
  lemma CompletionLosesWakeUpIff(s: QueueState, id: JobId, token: Token, value: Value, uuid: JobId, cronNext: Option<Time>, now: Time)
    requires Core(s) && uuid != "" && uuid !in s.jobs && Unlisted(s, uuid)
    requires Complete(s, id, token, value, uuid, cronNext, now).reply.Ok?
    ensures Awake(Complete(s, id, token, value, uuid, cronNext, now).state, {})
       <==> !exists g :: Some(g) != s.jobs[id].parentId && Strands(s, g, CompletionEnds(s, id, uuid))
  {
    CompletionIs(s, id, token, value, uuid, cronNext, now);
    SucceededEnds(s, id, value, uuid, cronNext, now);
    if s.jobs[id].parentId.None? {
      StandaloneCompletionLosesWakeUpIff(s, SucceededState(s, id, value, uuid, cronNext, now), id, uuid);
    } else {
      SucceededIs(s, id, value, uuid, cronNext, now);
      ReleaseAfterCompletion(s, SucceededState(s, id, value, uuid, cronNext, now), id, uuid, s.jobs[id].parentId.value, now);
    }
  }

  lemma CompletionIs(s: QueueState, id: JobId, token: Token, value: Value, uuid: JobId, cronNext: Option<Time>, now: Time)
    requires Complete(s, id, token, value, uuid, cronNext, now).reply.Ok?
    ensures id in s.jobs && s.jobs[id].state == Active
    ensures var w := SucceededState(s, id, value, uuid, cronNext, now);
            Complete(s, id, token, value, uuid, cronNext, now).state
              == if s.jobs[id].parentId.Some? then ReleaseParent(w, s.jobs[id].parentId.value, now) else w
  {
  }

  lemma StandaloneCompletionLosesWakeUpIff(s: QueueState, w: QueueState, id: JobId, uuid: JobId)
    requires id in s.jobs && s.jobs[id].parentId.None? && Ended(s, w, {id}, {})
    ensures Awake(w, {}) <==> !exists g :: Some(g) != s.jobs[id].parentId && Strands(s, g, CompletionEnds(s, id, uuid))
  {
    EndsLoseWakeUpIff(s, w, {id}, {});
    assert CompletionEnds(s, id, uuid) == {id};
    forall g ensures g !in {} && Strands(s, g, {id}) <==> Some(g) != s.jobs[id].parentId && Strands(s, g, {id}) {}
  }

  lemma ReleaseAfterCompletion(s: QueueState, w: QueueState, id: JobId, uuid: JobId, p: JobId, now: Time)
    requires Succeeded(s, w, id, uuid) && Ended(s, w, {id}, {}) && Unlisted(s, uuid) && s.jobs[id].parentId == Some(p)
    ensures Awake(ReleaseParent(w, p, now), {}) <==> !exists g :: g != p && Strands(s, g, CompletionEnds(s, id, uuid))
  {
    SucceededParent(s, w, id, uuid, p);
    if ReleaseMoves(w, p) { assert p != uuid && p in s.jobs; }
    ReleaseAfterEnd(s, w, id, p, now);
  }

  /** A job ended, and then its parent was released. */
  lemma ReleaseAfterEnd(s: QueueState, w: QueueState, id: JobId, p: JobId, now: Time)
    requires Ended(s, w, {id}, {}) && (ReleaseMoves(w, p) ==> p in s.jobs)
    requires Strands(s, p, {id} + Only(ReadyToFail(w, p), p)) ==> ReleaseMoves(w, p)
    ensures Awake(ReleaseParent(w, p, now), {}) <==> !exists g :: g != p && Strands(s, g, {id} + Only(ReadyToFail(w, p), p))
  {
    var ends, moved := Only(ReadyToFail(w, p), p), Only(ReleaseMoves(w, p), p);
    ReleaseEnds(w, p, now);
    EndedTwice(s, w, ReleaseParent(w, p, now), {id}, {}, ends, moved);
    EndsLoseWakeUpIff(s, ReleaseParent(w, p, now), {id} + ends, {} + moved);
    forall g ensures g !in {} + moved && Strands(s, g, {id} + ends) <==> g != p && Strands(s, g, {id} + ends) {}
  }

  // -- Failure ---------------------------------------------------------------------------------------------------

  /** The release after `id` failed fails its parent: as `ReadyToFail`, for the records that `id`'s retention leaves. */
  ghost predicate ReleaseFailsAfter(s: QueueState, id: JobId, failed: Job, p: JobId, now: Time)
  {
    var ended := Put(s, id, failed);
    && IsParked(s, p) && p != id
    && (forall c | c in s.jobs[p].childIds && c in s.jobs && c != id && !Leaves(ended, id, failed, now, c) ::
          s.jobs[c].state.IsTerminal() && (s.jobs[c].state == Failed ==> !s.jobs[c].options.failParentOnFailure))
    && exists c :: c in s.jobs[p].childIds && c in s.jobs && c != id && !Leaves(ended, id, failed, now, c)
                   && s.jobs[c].state == Failed && !s.jobs[c].options.HasFailurePolicy()
  }

  /** The terminal failure of `id` fails its parent. */
  ghost predicate FailureFails(s: QueueState, id: JobId, failed: Job, now: Time)
  {
    && failed.parentId.Some?
    && var p := failed.parentId.value;
       || (ReactionTo(failed) == FailOutright && IsLive(s, p) && p != id)
       || (ReactionTo(failed) == Release && ReleaseFailsAfter(s, id, failed, p, now))
  }

  /** What `fail` ends: nothing when the job is retried; else the job, and its parent if that fails too. */
  ghost function FailureEnds(s: QueueState, id: JobId, error: string, allowRetry: bool, now: Time): set<JobId>
    requires id in s.jobs
  {
    if allowRetry && ShouldRetry(s.jobs[id]) then {} else
      var failed := FailedJob(s.jobs[id], error, now);
      {id} + if FailureFails(s, id, failed, now) then {failed.parentId.value} else {}
  }

  /** Which records `id`'s retention leaves is known beforehand. */
  lemma FailedLeaves(s: QueueState, id: JobId, failed: Job, now: Time, c: JobId)
    requires Core(s) && id in s.jobs && c in s.jobs && c != id && failed.state == Failed && WellFormedJob(id, failed)
    ensures var w := RetainedState(s, id, failed, now);
            (c in w.jobs <==> !Leaves(Put(s, id, failed), id, failed, now, c)) && (c in w.jobs ==> w.jobs[c] == s.jobs[c])
  {
    var u := RecordWithParent(Put(s, id, failed), failed);
    RecordTouchesNoJob(Put(s, id, failed), failed);
    assert WellFormedJob(c, s.jobs[c]);
    RetainedIff(u, id, failed, now, c);
    SameLeave(s, u, id, failed, now, c);
  }

  lemma FailedParentReady(s: QueueState, id: JobId, failed: Job, p: JobId, now: Time)
    requires Core(s) && id in s.jobs && s.jobs[id].state == Active
    requires failed.state == Failed && WellFormedJob(id, failed) && failed.options.HasFailurePolicy() && !failed.options.failParentOnFailure
    ensures ReadyToFail(RetainedState(s, id, failed, now), p) <==> ReleaseFailsAfter(s, id, failed, p, now)
  {
    var w := RetainedState(s, id, failed, now);
    JobEnds(s, id, failed, now);
    FailedLeft(s, id, failed, now);
    if ReadyToFail(w, p) { ReadyForeseen(s, w, id, failed, p, now); }
    if ReleaseFailsAfter(s, id, failed, p, now) { ForeseenReady(s, w, id, failed, p, now); }
  }

  lemma FailedLeft(s: QueueState, id: JobId, failed: Job, now: Time)
    requires Core(s) && id in s.jobs && s.jobs[id].state == Active && failed.state == Failed && WellFormedJob(id, failed)
    ensures Left(s, RetainedState(s, id, failed, now), id, failed, now)
  {
    var w := RetainedState(s, id, failed, now);
    JobEnds(s, id, failed, now);
    FailedItself(s, id, failed, now);
    forall c | c in s.jobs && c != id
      ensures (c in w.jobs <==> !Leaves(Put(s, id, failed), id, failed, now, c)) && (c in w.jobs ==> w.jobs[c] == s.jobs[c])
    {
      FailedLeaves(s, id, failed, now, c);
    }
  }

  /** `w` holds what the retention of the failed `id` leaves of `s`. */
  ghost predicate Left(s: QueueState, w: QueueState, id: JobId, failed: Job, now: Time)
  {
    && w.jobs.Keys <= s.jobs.Keys
    && (forall c | c in s.jobs && c != id :: c in w.jobs <==> !Leaves(Put(s, id, failed), id, failed, now, c))
    && (forall c | c in w.jobs && c != id :: w.jobs[c] == s.jobs[c])
    && (id in w.jobs ==> w.jobs[id] == failed)
  }

  lemma ReadyForeseen(s: QueueState, w: QueueState, id: JobId, failed: Job, p: JobId, now: Time)
    requires Left(s, w, id, failed, now) && failed.state == Failed && failed.options.HasFailurePolicy() && ReadyToFail(w, p)
    ensures ReleaseFailsAfter(s, id, failed, p, now)
  {
    assert p != id && w.jobs[p] == s.jobs[p];
    var c :| c in w.jobs[p].childIds && c in w.jobs && w.jobs[c].state == Failed && !w.jobs[c].options.HasFailurePolicy();
    assert c != id && c in s.jobs && s.jobs[c] == w.jobs[c];
  }

  lemma ForeseenReady(s: QueueState, w: QueueState, id: JobId, failed: Job, p: JobId, now: Time)
    requires Left(s, w, id, failed, now) && failed.state == Failed && !failed.options.failParentOnFailure
    requires ReleaseFailsAfter(s, id, failed, p, now) && (IsLive(s, p) ==> p in w.jobs)
    ensures ReadyToFail(w, p)
  {
    assert w.jobs[p] == s.jobs[p];
    var c :| c in s.jobs[p].childIds && c in s.jobs && c != id && !Leaves(Put(s, id, failed), id, failed, now, c)
             && s.jobs[c].state == Failed && !s.jobs[c].options.HasFailurePolicy();
    assert c in w.jobs && w.jobs[c] == s.jobs[c];
  }

  lemma FailedItself(s: QueueState, id: JobId, failed: Job, now: Time)
    requires id in s.jobs
    ensures id in RetainedState(s, id, failed, now).jobs ==> RetainedState(s, id, failed, now).jobs[id] == failed
  {
    RecordTouchesNoJob(Put(s, id, failed), failed);
    RetainedSame(RecordWithParent(Put(s, id, failed), failed), id, failed, now);
  }

  /** What the reaction does to the parent could be foreseen; and a parent that only waited for `id` moves on or fails. */
  lemma FailedParentFate(s: QueueState, id: JobId, failed: Job, p: JobId, now: Time)
    requires Core(s) && id in s.jobs && s.jobs[id].state == Active && failed.state == Failed && WellFormedJob(id, failed) && failed.parentId == Some(p)
    ensures var w := RetainedState(s, id, failed, now);
            && (ReactionFails(w, failed, p) <==> FailureFails(s, id, failed, now))
            && (Strands(s, p, {id}) && !FailureFails(s, id, failed, now) ==> ReactionMoves(w, failed, p))
  {
    var w := RetainedState(s, id, failed, now);
    JobEnds(s, id, failed, now);
    assert IsLive(w, p) <==> IsLive(s, p) && p != id;
    if ReactionTo(failed) == Release { FailedParentReady(s, id, failed, p, now); }
    if Strands(s, p, {id}) {
      assert IsLive(s, p) && w.jobs[p] == s.jobs[p];
      forall c ensures !Blocking(w, p, c) {
        if Blocking(w, p, c) { StillBlocks(s, w, {id}, {}, p, c); }
      }
    }
  }

  lemma RetriedEnds(s: QueueState, id: JobId, error: string, backoff: Duration, now: Time)
    requires id in s.jobs && s.jobs[id].state == Active
    ensures Ended(s, Put(s, id, RetryingJob(s.jobs[id], error, backoff, now)), {}, {id})
  {
  }

  /** A terminal failure, where the reaction is foreseen. */
  lemma TerminalFailureLosesWakeUpIff(s: QueueState, id: JobId, failed: Job, now: Time)
    requires Core(s) && id in s.jobs && s.jobs[id].state == Active && failed.state == Failed && WellFormedJob(id, failed)
    ensures Awake(React(RetainedState(s, id, failed, now), failed, now), {})
       <==> !exists g :: Some(g) != failed.parentId && Strands(s, g, {id} + if FailureFails(s, id, failed, now) then {failed.parentId.value} else {})
  {
    var w := RetainedState(s, id, failed, now);
    JobEnds(s, id, failed, now);
    var all := {id} + if FailureFails(s, id, failed, now) then {failed.parentId.value} else {};
    if failed.parentId.None? {
      EndsLoseWakeUpIff(s, w, {id}, {});
      forall g ensures g !in {} && Strands(s, g, {id}) <==> Some(g) != failed.parentId && Strands(s, g, all) {}
    } else {
      var p := failed.parentId.value;
      FailedParentFate(s, id, failed, p, now);
      ReactionAfterFailure(s, w, id, failed, p, FailureFails(s, id, failed, now), now);
    }
  }

  lemma ReactionAfterFailure(s: QueueState, w: QueueState, id: JobId, failed: Job, p: JobId, fails: bool, now: Time)
    requires Ended(s, w, {id}, {}) && w.jobs.Keys <= s.jobs.Keys && failed.parentId == Some(p)
    requires (ReactionFails(w, failed, p) <==> fails) && (Strands(s, p, {id}) && !fails ==> ReactionMoves(w, failed, p))
    ensures Awake(React(w, failed, now), {}) <==> !exists g :: Some(g) != failed.parentId && Strands(s, g, {id} + if fails then {p} else {})
  {
    ReactEnds(w, failed, p, now);
    var ends, moved := Only(fails, p), Only(ReactionMoves(w, failed, p), p);
    EndedTwice(s, w, React(w, failed, now), {id}, {}, ends, moved);
    EndsLoseWakeUpIff(s, React(w, failed, now), {id} + ends, {} + moved);
    assert {id} + ends == {id} + if fails then {p} else {};
    forall g ensures g !in {} + moved && Strands(s, g, {id} + ends) <==> Some(g) != failed.parentId && Strands(s, g, {id} + ends) {}
  }

  /**
    Failing a job, retried or not, in any flow and under any id, loses a wake-up
    if and only if some parent other than the job's own waited for nobody but
    the job and the parent that its failure fails.
   */
  lemma FailureLosesWakeUpIff(s: QueueState, id: JobId, token: Token, error: string, allowRetry: bool, backoff: Duration, now: Time)
    requires Core(s) && Awake(s, {}) && RequireLease(s, id, token).None?
    ensures Awake(Fail(s, id, token, error, allowRetry, backoff, now).state, {})
       <==> !exists g :: Some(g) != s.jobs[id].parentId && Strands(s, g, FailureEnds(s, id, error, allowRetry, now))
  {
    assert WellFormedJob(id, s.jobs[id]);
    if allowRetry && ShouldRetry(s.jobs[id]) {
      RetriedEnds(s, id, error, backoff, now);
      EndsLoseWakeUpIff(s, Fail(s, id, token, error, allowRetry, backoff, now).state, {}, {id});
      forall g ensures !Strands(s, g, {}) { assert IsParked(s, g) && g !in {} ==> exists c :: Blocking(s, g, c); }
    } else {
      TerminalFailureLosesWakeUpIff(s, id, FailedJob(s.jobs[id], error, now), now);
    }
  }

  // -- Nested flows and reused ids ----------------------------------------------------------------------------

  /**
    Nested flows: where every child names its parent, the terminal failure of a
    child without a policy strands a grandparent exactly when its live parent is
    the last unfinished child of one.
   */
  lemma NestedFailureLosesWakeUpIff(s: QueueState, id: JobId, p: JobId, token: Token, error: string, allowRetry: bool, backoff: Duration, now: Time)
    requires Core(s) && Linked(s) && Awake(s, {}) && RequireLease(s, id, token).None?
    requires s.jobs[id].parentId == Some(p) && p != id && IsLive(s, p)
    requires !s.jobs[id].options.HasFailurePolicy() && !(allowRetry && ShouldRetry(s.jobs[id]))
    ensures Awake(Fail(s, id, token, error, allowRetry, backoff, now).state, {}) <==> !exists g :: Orphans(s, g, p)
  {
    FailureLosesWakeUpIff(s, id, token, error, allowRetry, backoff, now);
    NestedFailureEnds(s, id, p, error, allowRetry, now);
    forall g ensures Some(g) != Some(p) && Strands(s, g, {id, p}) <==> Orphans(s, g, p) { NestedStrands(s, id, p, g); }
  }

  lemma NestedFailureEnds(s: QueueState, id: JobId, p: JobId, error: string, allowRetry: bool, now: Time)
    requires id in s.jobs && s.jobs[id].parentId == Some(p) && p != id && IsLive(s, p)
    requires !s.jobs[id].options.HasFailurePolicy() && !(allowRetry && ShouldRetry(s.jobs[id]))
    ensures FailureEnds(s, id, error, allowRetry, now) == {id, p}
  {
  }

  lemma NestedStrands(s: QueueState, id: JobId, p: JobId, g: JobId)
    requires Linked(s) && Awake(s, {}) && id in s.jobs && s.jobs[id].parentId == Some(p) && s.jobs[id].state == Active
    ensures g != p && Strands(s, g, {id, p}) <==> Orphans(s, g, p)
  {
    if g != p && Strands(s, g, {id, p}) {
      assert g !in {};
      var c :| Blocking(s, g, c);
      assert !Blocking(s, g, id);
    }
  }

  /**
    Reused ids: ending a job that names no parent loses a wake-up exactly when a
    parent that lists its id waits for nobody else.
   */
  lemma ReusedChildLosesWakeUpIff(s: QueueState, c: JobId, token: Token, value: Value, uuid: JobId, cronNext: Option<Time>, now: Time)
    requires Core(s) && Awake(s, {}) && uuid != "" && uuid !in s.jobs && Unlisted(s, uuid)
    requires Complete(s, c, token, value, uuid, cronNext, now).reply.Ok? && s.jobs[c].parentId.None?
    ensures Awake(Complete(s, c, token, value, uuid, cronNext, now).state, {}) <==> !exists p :: Orphans(s, p, c)
  {
    CompletionLosesWakeUpIff(s, c, token, value, uuid, cronNext, now);
    assert CompletionEnds(s, c, uuid) == {c};
    forall g ensures Some(g) != s.jobs[c].parentId && Strands(s, g, {c}) <==> Orphans(s, g, c) { StrandedAreOrphans(s, c, g); }
  }

  lemma ReusedChildFailureLosesWakeUpIff(s: QueueState, c: JobId, token: Token, error: string, allowRetry: bool, backoff: Duration, now: Time)
    requires Core(s) && Awake(s, {}) && RequireLease(s, c, token).None?
    requires s.jobs[c].parentId.None? && !(allowRetry && ShouldRetry(s.jobs[c]))
    ensures Awake(Fail(s, c, token, error, allowRetry, backoff, now).state, {}) <==> !exists p :: Orphans(s, p, c)
  {
    FailureLosesWakeUpIff(s, c, token, error, allowRetry, backoff, now);
    assert FailureEnds(s, c, error, allowRetry, now) == {c};
    forall g ensures Some(g) != s.jobs[c].parentId && Strands(s, g, {c}) <==> Orphans(s, g, c) { StrandedAreOrphans(s, c, g); }
  }

  /** Storing a fresh standalone job keeps stored children linked exactly when no parent lists its id. */
  lemma InsertKeepsLinkedIff(s: QueueState, job: Job)
    requires Linked(s) && job.id !in s.jobs && job.parentId.None? && job.childIds == []
    ensures Linked(Insert(s, job)) <==> Unlisted(s, job.id)
  {
    var t := Insert(s, job);
    if p :| p in s.jobs && job.id in s.jobs[p].childIds {
      assert p in t.jobs && job.id in t.jobs[p].childIds && t.jobs[job.id].parentId != Some(p);
    }
  }
}
