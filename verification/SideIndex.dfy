/**
  The per-parent side index agrees with the child records: what one says of a
  retained child, the other says too.
 */
module SideIndex {
  import opened Ordering
  import opened JobTypes
  import opened QueueModel
  import opened CoreInvariant
  import opened CoreSubmit
  import opened CoreLifecycle
  import opened Operations
  import opened FanIn
  import opened FanInSubmit
  import opened FanInRuns

  // -- What index and record say about a child ----------------------------------------

  datatype Entry = Absent | Done(value: Value) | Passed | Fatal

  function EntryIn(index: DependencyIndex, c: JobId): Entry
  {
    if c in index.processed then Done(index.processed[c])
    else if c in index.ignored then Passed
    else if c in index.failed then Fatal
    else Absent
  }

  /** The entry a child's record calls for. */
  function EntryOf(job: Job): Entry
  {
    if job.state == Completed then Done(if job.returnValue.Some? then job.returnValue.value else Null)
    else if job.state != Failed then Absent
    else if job.options.ignoreDependencyOnFailure || job.options.continueParentOnFailure then Passed
    else if job.options.failParentOnFailure then Fatal
    else Absent
  }

  /** The index is right about child `c` of `p`, or says nothing yet and `(p, c)` is still open. */
  ghost predicate Agrees(s: QueueState, p: JobId, c: JobId, open: set<(JobId, JobId)>)
    requires c in s.jobs
  {
    var entry := EntryIn(IndexOf(s, p), c);
    entry == EntryOf(s.jobs[c]) || ((p, c) in open && entry == Absent)
  }

  ghost predicate ExactUpTo(s: QueueState, open: set<(JobId, JobId)>)
  {
    forall p, c | p in s.jobs && c in s.jobs[p].childIds && c in s.jobs :: Agrees(s, p, c, open)
  }

  /** Every retained child is indexed with its retained parent exactly as its record says. */
  ghost predicate Exact(s: QueueState) { ExactUpTo(s, {}) }

  // -- Steps that leave index and finished children alone --------------------------------

  /** Nothing a listed child's record says has changed, and no index. */
  ghost predicate Steady(s: QueueState, t: QueueState)
  {
    && t.jobs.Keys <= s.jobs.Keys
    && (forall p | p in t.jobs :: t.jobs[p].childIds == s.jobs[p].childIds && IndexOf(t, p) == IndexOf(s, p))
    && (forall c | c in t.jobs :: EntryOf(t.jobs[c]) == EntryOf(s.jobs[c]) || Unlisted(t, c))
  }

  lemma SteadyKeepsExact(s: QueueState, t: QueueState, open: set<(JobId, JobId)>)
    requires Steady(s, t) && ExactUpTo(s, open)
    ensures ExactUpTo(t, open)
  {
    forall p, c | p in t.jobs && c in t.jobs[p].childIds && c in t.jobs ensures Agrees(t, p, c, open) {
      assert Agrees(s, p, c, open) && IndexOf(t, p) == IndexOf(s, p);
    }
  }

  /** A calm step is steady when no listed child finishes in it. */
  lemma CalmIsSteady(s: QueueState, t: QueueState)
    requires Calm(s, t) && SameIndexes(s, t)
    requires forall c | c in t.jobs && t.jobs[c].state.IsTerminal() :: s.jobs[c].state.IsTerminal() || Unlisted(t, c)
    ensures Steady(s, t)
  {
    forall c | c in t.jobs ensures t.jobs[c].childIds == s.jobs[c].childIds
      && (EntryOf(t.jobs[c]) == EntryOf(s.jobs[c]) || Unlisted(t, c))
    {
      assert CalmJob(s.jobs[c], t.jobs[c]);
    }
  }

  lemma SteadyTransitive(s: QueueState, t: QueueState, u: QueueState)
    requires Steady(s, t) && Steady(t, u)
    ensures Steady(s, u)
  {
    forall c | c in u.jobs ensures EntryOf(u.jobs[c]) == EntryOf(s.jobs[c]) || Unlisted(u, c) {
      if Unlisted(t, c) {
        forall p | p in u.jobs ensures c !in u.jobs[p].childIds { assert u.jobs[p].childIds == t.jobs[p].childIds; }
      }
    }
  }

  lemma RemoveAllIsSteady(s: QueueState, ids: set<JobId>)
    requires Core(s)
    ensures Steady(s, RemoveAll(s, ids))
  {
    RemoveAllIsCalm(s, ids);
    CalmIsSteady(s, RemoveAll(s, ids));
  }

  lemma RetainFinishedIsSteady(s: QueueState, id: JobId, job: Job, now: Time)
    requires Core(s)
    ensures Steady(s, RetainFinished(s, id, job, now))
  {
    RetainFinishedIsCalm(s, id, job, now);
    RetainedSame(s, id, job, now);
    CalmIsSteady(s, RetainFinished(s, id, job, now));
  }

  lemma ApplyRetentionIsSteady(s: QueueState, state: JobState, retention: JobRetention, now: Time)
    requires Core(s)
    ensures Steady(s, ApplyRetention(s, state, retention, now))
  {
    var aged := AgePass(s, state, retention, now);
    RetentionOnlyRemoves(s, state, retention, now);
    RemoveAllIsCalm(s, AgePassEvicts(s, state, retention, now));
    RemoveAllIsSteady(s, AgePassEvicts(s, state, retention, now));
    RetentionOnlyRemoves(aged, state, retention, now);
    RemoveAllIsSteady(aged, CountPassEvicts(aged, state, retention));
    SteadyTransitive(s, aged, CountPass(aged, state, retention));
  }

  // -- Parents ------------------------------------------------------------------------------

  lemma FailParentIsSteady(s: QueueState, p: JobId, reason: string, now: Time)
    requires Core(s) && (p in s.jobs ==> Unlisted(s, p))
    ensures Steady(s, FailParent(s, p, reason, now))
  {
    var t := FailParent(s, p, reason, now);
    FailParentIsCalm(s, p, reason, now);
    FailParentFrame(s, p, reason, now);
    if p in t.jobs {
      forall q | q in t.jobs ensures p !in t.jobs[q].childIds { assert CalmJob(s.jobs[q], t.jobs[q]); }
    }
    CalmIsSteady(s, t);
  }

  lemma ResumeIsSteady(s: QueueState, p: JobId, deferred: Option<JobId>, now: Time)
    requires Core(s) && p in s.jobs && !s.jobs[p].state.IsTerminal()
    ensures Steady(s, PutInOrder(s, p, Resumed(s.jobs[p], deferred, now)))
  {
    ResumedIsCalm(s, p, deferred, now);
    CalmIsSteady(s, PutInOrder(s, p, Resumed(s.jobs[p], deferred, now)));
  }

  lemma ContinueParentIsSteady(s: QueueState, p: JobId, now: Time)
    requires Core(s)
    ensures Steady(s, ContinueParent(s, p, now))
  {
    if IsParked(s, p) { ResumeIsSteady(s, p, None, now); }
  }

  lemma DeferParentIsSteady(s: QueueState, p: JobId, childId: JobId, now: Time)
    requires Core(s)
    ensures Steady(s, DeferParentFailure(s, p, childId, now))
  {
    if p in s.jobs && !s.jobs[p].state.IsTerminal() { ResumeIsSteady(s, p, Some(childId), now); }
  }

  lemma ReleaseParentIsSteady(s: QueueState, p: JobId, now: Time)
    requires Core(s) && Structure(s)
    ensures Steady(s, ReleaseParent(s, p, now))
  {
    if IsParked(s, p) {
      ScanMeaning(s, s.jobs[p].childIds);
      match ScanChildren(s, s.jobs[p].childIds)
      case Blocked =>
      case Ready(Some(child), _) => DeferParentIsSteady(s, p, child, now);
      case Ready(None, Some(child)) =>
        assert s.jobs[child].parentId == Some(p);
        assert FailsParentOutright(s, child, p);
        FailParentIsSteady(s, p, ChildFailureReason(child, if child in s.jobs then s.jobs[child].failedReason else None), now);
      case Ready(None, None) => ContinueParentIsSteady(s, p, now);
    }
  }

  lemma {:induction false} ReleaseParentsIsSteady(s: QueueState, parentIds: seq<JobId>, now: Time)
    requires Core(s) && Structure(s)
    ensures Steady(s, ReleaseParents(s, parentIds, now))
    decreases |parentIds|
  {
    if parentIds != [] {
      var n := |parentIds| - 1;
      var before := ReleaseParents(s, parentIds[..n], now);
      ReleaseParentsIsCalm(s, parentIds[..n], now);
      CalmKeepsStructure(s, before);
      ReleaseParentsIsSteady(s, parentIds[..n], now);
      ReleaseParentIsSteady(before, parentIds[n], now);
      SteadyTransitive(s, before, ReleaseParents(s, parentIds, now));
    }
  }

  lemma ReactIsSteady(s: QueueState, child: Job, now: Time)
    requires Core(s) && Structure(s) && MayFailOutright(s, child)
    ensures Steady(s, React(s, child, now))
  {
    if child.parentId.Some? {
      var p := child.parentId.value;
      match ReactionTo(child)
      case Defer => DeferParentIsSteady(s, p, child.id, now);
      case Continue => ContinueParentIsSteady(s, p, now);
      case Release => ReleaseParentIsSteady(s, p, now);
      case FailOutright => FailParentIsSteady(s, p, ChildFailureReason(child.id, child.failedReason), now);
    }
  }

  lemma {:induction false} ReactAllIsSteady(s: QueueState, failures: seq<Job>, r: Reaction, now: Time)
    requires Core(s) && Structure(s) && AllMayFailOutright(s, failures)
    ensures Steady(s, ReactAll(s, failures, r, now))
    ensures Core(ReactAll(s, failures, r, now)) && Structure(ReactAll(s, failures, r, now))
    ensures AllMayFailOutright(ReactAll(s, failures, r, now), failures)
    decreases |failures|
  {
    ReactAllIsCalm(s, failures, r, now);
    CalmKeepsStructure(s, ReactAll(s, failures, r, now));
    CalmKeepsMayFail(s, ReactAll(s, failures, r, now), failures);
    if failures != [] {
      var n := |failures| - 1;
      forall k | 0 <= k < n ensures MayFailOutright(s, failures[..n][k]) { assert failures[..n][k] == failures[k]; }
      ReactAllIsSteady(s, failures[..n], r, now);
      var before := ReactAll(s, failures[..n], r, now);
      if ReactionTo(failures[n]) == r {
        ReactAllIsCalm(s, failures[..n], r, now);
        CalmKeepsMayFail(s, before, failures);
        ReactIsSteady(before, failures[n], now);
        SteadyTransitive(s, before, ReactAll(s, failures, r, now));
      }
    }
  }

  lemma ReactionsAreSteady(s: QueueState, failures: seq<Job>, now: Time)
    requires Core(s) && Structure(s) && AllMayFailOutright(s, failures)
    ensures Steady(s, Reactions(s, failures, now))
  {
    ReactAllIsSteady(s, failures, Defer, now);
    var a := ReactAll(s, failures, Defer, now);
    ReactAllIsSteady(a, failures, Continue, now);
    var b := ReactAll(a, failures, Continue, now);
    ReactAllIsSteady(b, failures, Release, now);
    var c := ReactAll(b, failures, Release, now);
    ReactAllIsSteady(c, failures, FailOutright, now);
    SteadyTransitive(s, a, b);
    SteadyTransitive(s, b, c);
    SteadyTransitive(s, c, Reactions(s, failures, now));
  }

  // -- Recording a finished child ----------------------------------------------------------------

  /** The entry after a child was recorded over entry `e`. */
  function Settled(e: Entry, child: Job): Entry
  {
    if EntryOf(child) != Absent then EntryOf(child)
    else if child.state == Failed && child.options.removeDependencyOnFailure then Absent
    else e
  }

  /** One index may have changed, in what it says about one child. */
  ghost predicate OnlyEntry(s: QueueState, t: QueueState, p: JobId, c: JobId)
  {
    && t == s.(flowDependencies := t.flowDependencies)
    && (forall q | q != p :: IndexOf(t, q) == IndexOf(s, q))
    && (forall x | x != c :: EntryIn(IndexOf(t, p), x) == EntryIn(IndexOf(s, p), x))
  }

  lemma ErasedEntry(index: DependencyIndex, c: JobId)
    ensures EntryIn(index.Erase(c), c) == Absent
    ensures forall x | x != c :: EntryIn(index.Erase(c), x) == EntryIn(index, x)
  {
  }

  lemma ClearEntry(s: QueueState, p: JobId, c: JobId)
    requires Indexes(s)
    ensures var t := ClearChildDependency(s, p, c); OnlyEntry(s, t, p, c) && EntryIn(IndexOf(t, p), c) == Absent
  {
    ClearRemovesEveryTrace(s, p, c);
    ErasedEntry(IndexOf(s, p), c);
  }

  lemma CompletedEntry(s: QueueState, p: JobId, c: JobId, value: Value)
    ensures var t := RecordCompletedChild(s, p, c, value); OnlyEntry(s, t, p, c) && EntryIn(IndexOf(t, p), c) == Done(value)
  {
  }

  lemma IgnoredEntry(s: QueueState, p: JobId, c: JobId, reason: string)
    ensures var t := RecordIgnoredChild(s, p, c, reason); OnlyEntry(s, t, p, c) && EntryIn(IndexOf(t, p), c) == Passed
  {
  }

  lemma FailedEntry(s: QueueState, p: JobId, c: JobId)
    ensures var t := RecordFailedChild(s, p, c); OnlyEntry(s, t, p, c) && EntryIn(IndexOf(t, p), c) == Fatal
  {
  }

  lemma RecordEntry(s: QueueState, p: JobId, child: Job)
    requires Indexes(s) && p in s.jobs && child.id in s.jobs[p].childIds
    ensures var t := RecordTerminalChild(s, p, child);
            OnlyEntry(s, t, p, child.id) && EntryIn(IndexOf(t, p), child.id) == Settled(EntryIn(IndexOf(s, p), child.id), child)
  {
    if child.state == Completed {
      CompletedEntry(s, p, child.id, if child.returnValue.Some? then child.returnValue.value else Null);
    } else if child.state == Failed {
      if child.options.ignoreDependencyOnFailure || child.options.continueParentOnFailure {
        IgnoredEntry(s, p, child.id, if child.failedReason.Some? then child.failedReason.value else "");
      } else if child.options.failParentOnFailure {
        FailedEntry(s, p, child.id);
      } else {
        ClearEntry(s, p, child.id);
      }
    }
  }

  /** Recording a child closes its pair. */
  lemma RecordSettles(s: QueueState, p: JobId, child: Job, open: set<(JobId, JobId)>)
    requires Indexes(s) && ExactUpTo(s, open)
    requires child.id in s.jobs ==> s.jobs[child.id] == child
    ensures ExactUpTo(RecordTerminalChild(s, p, child), open - {(p, child.id)})
  {
    var t := RecordTerminalChild(s, p, child);
    if p in s.jobs && child.id in s.jobs[p].childIds {
      RecordEntry(s, p, child);
    }
    forall q, c | q in t.jobs && c in t.jobs[q].childIds && c in t.jobs ensures Agrees(t, q, c, open - {(p, child.id)}) {
      assert Agrees(s, q, c, open);
    }
  }

  /** All pairs in which `c` is the child. */
  ghost function OpenFor(job: Job): set<(JobId, JobId)>
  {
    if job.parentId.Some? then {(job.parentId.value, job.id)} else {}
  }

  lemma RecordWithParentSettles(s: QueueState, child: Job, open: set<(JobId, JobId)>)
    requires Indexes(s) && ExactUpTo(s, open)
    requires child.id in s.jobs ==> s.jobs[child.id] == child
    ensures ExactUpTo(RecordWithParent(s, child), open - OpenFor(child))
  {
    if child.parentId.Some? { RecordSettles(s, child.parentId.value, child, open); }
    else { assert open - OpenFor(child) == open; }
  }

  /** A live job stored as finished is still to be recorded, with the one parent that lists it. */
  lemma FinishedIsOpen(s: QueueState, id: JobId, finished: Job)
    requires Linked(s) && Exact(s) && id in s.jobs && !s.jobs[id].state.IsTerminal()
    requires finished.id == id && finished.parentId == s.jobs[id].parentId && finished.childIds == s.jobs[id].childIds
    ensures ExactUpTo(Put(s, id, finished), OpenFor(finished))
  {
    var t := Put(s, id, finished);
    forall p, c | p in t.jobs && c in t.jobs[p].childIds && c in t.jobs ensures Agrees(t, p, c, OpenFor(finished)) {
      assert p in s.jobs && c in s.jobs[p].childIds && Agrees(s, p, c, {});
      if c == id { assert s.jobs[id].parentId == Some(p); }
    }
  }

  lemma FinishIsExact(s: QueueState, id: JobId, finished: Job, now: Time)
    requires Core(s) && Linked(s) && Exact(s) && id in s.jobs && !s.jobs[id].state.IsTerminal() && WellFormedJob(id, finished)
    requires finished.parentId == s.jobs[id].parentId && finished.childIds == s.jobs[id].childIds
    requires finished.lockToken.None? && finished.enqueuedSeq == s.jobs[id].enqueuedSeq
    ensures Exact(RetainFinished(RecordWithParent(Put(s, id, finished), finished), id, finished, now))
  {
    var stored := Put(s, id, finished);
    FinishedIsOpen(s, id, finished);
    PutKeeps(s, id, finished);
    RecordWithParentIsCalm(stored, finished);
    RecordWithParentSettles(stored, finished, OpenFor(finished));
    assert OpenFor(finished) - OpenFor(finished) == {};
    var recorded := RecordWithParent(stored, finished);
    RetainFinishedIsSteady(recorded, id, finished, now);
    SteadyKeepsExact(recorded, RetainFinished(recorded, id, finished, now), {});
  }

  // -- New jobs ----------------------------------------------------------------------------------

  lemma InsertKeepsExact(s: QueueState, job: Job)
    requires Core(s) && Exact(s) && job.id !in s.jobs && Unlisted(s, job.id) && job.childIds == []
    ensures Exact(Insert(s, job))
  {
    var t := Insert(s, job);
    InsertAdds(s, job);
    forall p, c | p in t.jobs && c in t.jobs[p].childIds && c in t.jobs ensures Agrees(t, p, c, {}) {
      AddedAgrees(s, t, job.id, p, c);
    }
  }

  lemma AddedAgrees(s: QueueState, t: QueueState, id: JobId, p: JobId, c: JobId)
    requires Added(s, t, id) && Exact(s) && Unlisted(s, id)
    requires p in t.jobs && c in t.jobs[p].childIds && c in t.jobs
    ensures Agrees(t, p, c, {})
  {
    assert Agrees(s, p, c, {});
  }

  ghost function OpenPairs(parentId: JobId, rest: seq<Job>): set<(JobId, JobId)>
  {
    set c | c in Ids(rest) :: (parentId, c)
  }

  /** Children still to be attached: their parent lists them, and new ones are nobody else's business yet. */
  ghost predicate Unattached(u: QueueState, parentId: JobId, rest: seq<Job>)
  {
    && parentId in u.jobs
    && (forall c | c in Ids(rest) :: c in u.jobs[parentId].childIds)
    && (forall p, c | p in u.jobs && p != parentId && c in Ids(rest) && c !in u.jobs :: c !in u.jobs[p].childIds)
    && (forall c | c in Ids(rest) && c !in u.jobs :: EntryIn(IndexOf(u, parentId), c) == Absent)
  }

  lemma RelinkedIsSteady(u: QueueState, c: JobId, parentId: JobId)
    requires Core(u) && c in u.jobs
    ensures var t := Put(u, c, u.jobs[c].(parentId := Some(parentId))); Core(t) && Steady(u, t)
  {
    assert WellFormedJob(c, u.jobs[c]);
    PutKeeps(u, c, u.jobs[c].(parentId := Some(parentId)));
    RewrittenIsSteady(u, c, u.jobs[c].(parentId := Some(parentId)));
  }

  lemma RewrittenIsSteady(s: QueueState, id: JobId, job: Job)
    requires id in s.jobs && job.childIds == s.jobs[id].childIds && EntryOf(job) == EntryOf(s.jobs[id])
    ensures Steady(s, Put(s, id, job))
  {
    var t := Put(s, id, job);
    assert t.jobs.Keys == s.jobs.Keys;
    forall c | c in t.jobs ensures EntryOf(t.jobs[c]) == EntryOf(s.jobs[c]) {}
  }

  lemma AttachExistingExact(u: QueueState, parentId: JobId, child: Job, open: set<(JobId, JobId)>)
    requires Core(u) && child.id in u.jobs && child.id != parentId && ExactUpTo(u, open) && IsNew(child)
    ensures ExactUpTo(AttachChild(u, parentId, child), open - {(parentId, child.id)})
  {
    var existing := u.jobs[child.id].(parentId := Some(parentId));
    var stored := Put(u, child.id, existing);
    RelinkedIsSteady(u, child.id, parentId);
    SteadyKeepsExact(u, stored, open);
    RecordSettles(stored, parentId, existing, open);
  }

  /** A childless job that was stored, and no index touched. */
  ghost predicate Added(s: QueueState, t: QueueState, id: JobId)
  {
    && id !in s.jobs && t.jobs.Keys == s.jobs.Keys + {id} && t.jobs[id].childIds == []
    && (forall x | x in s.jobs :: t.jobs[x] == s.jobs[x])
    && t.flowDependencies == s.flowDependencies
  }

  lemma AddedExact(s: QueueState, t: QueueState, parentId: JobId, id: JobId, open: set<(JobId, JobId)>)
    requires Added(s, t, id) && ExactUpTo(s, open)
    requires EntryOf(t.jobs[id]) == Absent == EntryIn(IndexOf(s, parentId), id)
    requires forall p | p in s.jobs && p != parentId :: id !in s.jobs[p].childIds
    ensures ExactUpTo(t, open - {(parentId, id)})
  {
    forall p, c | p in t.jobs && c in t.jobs[p].childIds && c in t.jobs ensures Agrees(t, p, c, open - {(parentId, id)}) {
      if c != id { assert Agrees(s, p, c, open); }
    }
  }

  lemma InsertAdds(s: QueueState, job: Job)
    requires job.id !in s.jobs && job.childIds == []
    ensures Added(s, Insert(s, job), job.id)
  {
  }

  lemma AttachNewExact(u: QueueState, parentId: JobId, child: Job, open: set<(JobId, JobId)>)
    requires Core(u) && child.id !in u.jobs && IsNew(child) && ExactUpTo(u, open)
    requires EntryIn(IndexOf(u, parentId), child.id) == Absent
    requires forall p | p in u.jobs && p != parentId :: child.id !in u.jobs[p].childIds
    ensures ExactUpTo(AttachChild(u, parentId, child), open - {(parentId, child.id)})
  {
    InsertAdds(u, child);
    AddedExact(u, Insert(u, child), parentId, child.id, open);
  }

  lemma AttachChildIndexes(u: QueueState, parentId: JobId, child: Job)
    requires Core(u) && IsNew(child) && child.id != parentId && parentId in u.jobs && child.id in u.jobs[parentId].childIds
    ensures var t := AttachChild(u, parentId, child);
            forall x | x != child.id :: EntryIn(IndexOf(t, parentId), x) == EntryIn(IndexOf(u, parentId), x)
  {
    if child.id in u.jobs {
      var existing := u.jobs[child.id].(parentId := Some(parentId));
      PutKeeps(u, child.id, existing);
      RecordEntry(Put(u, child.id, existing), parentId, existing);
    }
  }

  /** The ids still to come, without the first. */
  lemma RestIds(parentId: JobId, rest: seq<Job>)
    requires rest != [] && AreChildren(parentId, rest)
    ensures rest[0].id in Ids(rest) && rest[0].id != parentId
    ensures forall c :: c in Ids(rest[1..]) <==> c in Ids(rest) && c != rest[0].id
    ensures OpenPairs(parentId, rest) - {(parentId, rest[0].id)} == OpenPairs(parentId, rest[1..])
  {
    var child, more := rest[0], rest[1..];
    assert Ids(rest)[0] == child.id;
    forall c | c in Ids(more) ensures c in Ids(rest) && c != child.id {
      var k :| 0 <= k < |more| && Ids(more)[k] == c;
      assert Ids(rest)[k + 1] == c && rest[k + 1] == more[k];
    }
    forall c | c in Ids(rest) && c != child.id ensures c in Ids(more) {
      var k :| 0 <= k < |rest| && Ids(rest)[k] == c;
      assert Ids(more)[k - 1] == c;
    }
  }

  lemma UnattachedRest(u: QueueState, t: QueueState, parentId: JobId, id: JobId, rest: seq<Job>, more: seq<Job>)
    requires Unattached(u, parentId, rest) && id in Ids(rest) && id != parentId
    requires forall c :: c in Ids(more) <==> c in Ids(rest) && c != id
    requires t.jobs.Keys == u.jobs.Keys + {id} && (forall x | x in u.jobs :: t.jobs[x].childIds == u.jobs[x].childIds)
    requires id in u.jobs || t.jobs[id].childIds == []
    requires forall x | x != id :: EntryIn(IndexOf(t, parentId), x) == EntryIn(IndexOf(u, parentId), x)
    ensures Unattached(t, parentId, more)
  {
  }

  lemma UnattachedOneMore(u: QueueState, parentId: JobId, rest: seq<Job>)
    requires Core(u) && rest != [] && AreChildren(parentId, rest) && Unattached(u, parentId, rest)
    ensures Unattached(AttachChild(u, parentId, rest[0]), parentId, rest[1..])
  {
    RestIds(parentId, rest);
    AttachChildFrame(u, parentId, rest[0]);
    AttachChildIndexes(u, parentId, rest[0]);
    UnattachedRest(u, AttachChild(u, parentId, rest[0]), parentId, rest[0].id, rest, rest[1..]);
  }

  lemma AttachedOneMore(u: QueueState, parentId: JobId, rest: seq<Job>)
    requires rest != [] && AreChildren(parentId, rest)
    requires Core(u) && Unattached(u, parentId, rest) && ExactUpTo(u, OpenPairs(parentId, rest))
    ensures var t := AttachChild(u, parentId, rest[0]);
            Core(t) && Unattached(t, parentId, rest[1..]) && ExactUpTo(t, OpenPairs(parentId, rest[1..]))
  {
    AttachChildKeeps(u, parentId, rest[0]);
    UnattachedOneMore(u, parentId, rest);
    AttachOneExact(u, parentId, rest);
  }

  lemma AttachOneExact(u: QueueState, parentId: JobId, rest: seq<Job>)
    requires Core(u) && rest != [] && AreChildren(parentId, rest) && Unattached(u, parentId, rest)
    requires ExactUpTo(u, OpenPairs(parentId, rest))
    ensures ExactUpTo(AttachChild(u, parentId, rest[0]), OpenPairs(parentId, rest[1..]))
  {
    var child := rest[0];
    RestIds(parentId, rest);
    if child.id in u.jobs { AttachExistingExact(u, parentId, child, OpenPairs(parentId, rest)); }
    else { AttachNewExact(u, parentId, child, OpenPairs(parentId, rest)); }
  }

  lemma {:induction false} AttachPrefix(s: QueueState, parentId: JobId, children: seq<Job>, k: nat)
    requires k <= |children| && AreChildren(parentId, children)
    requires Core(s) && Unattached(s, parentId, children) && ExactUpTo(s, OpenPairs(parentId, children))
    ensures var t := AttachChildren(s, parentId, children[..k]);
            Core(t) && Unattached(t, parentId, children[k..]) && ExactUpTo(t, OpenPairs(parentId, children[k..]))
  {
    if k == 0 {
      assert children[0..] == children;
    } else {
      AttachPrefix(s, parentId, children, k - 1);
      assert children[..k][..k - 1] == children[..k - 1] && children[..k][k - 1] == children[k - 1];
      assert children[k - 1..][1..] == children[k..] && children[k - 1..][0] == children[k - 1];
      AttachedOneMore(AttachChildren(s, parentId, children[..k - 1]), parentId, children[k - 1..]);
    }
  }

  lemma AttachedExact(s: QueueState, parentId: JobId, children: seq<Job>)
    requires AreChildren(parentId, children)
    requires Core(s) && Unattached(s, parentId, children) && ExactUpTo(s, OpenPairs(parentId, children))
    ensures Exact(AttachChildren(s, parentId, children))
  {
    AttachPrefix(s, parentId, children, |children|);
    assert children[..|children|] == children;
    assert OpenPairs(parentId, children[|children|..]) == {};
  }
}
