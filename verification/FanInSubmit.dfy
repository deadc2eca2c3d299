/**
  Adding jobs, flows and flow children keeps the fan-in invariant, under
  conditions on the submitted ids and failure policies.
 */
module FanInSubmit {
  import opened Ordering
  import opened JobTypes
  import opened QueueModel
  import opened CoreInvariant
  import opened CoreSubmit
  import opened Operations
  import opened FanIn

  // -- Records rewritten without touching the flow -------------------------------------

  predicate SameFlowJob(before: Job, after: Job)
  {
    && after.parentId == before.parentId && after.childIds == before.childIds
    && after.options.HasFailurePolicy() == before.options.HasFailurePolicy()
    && after.state.IsTerminal() == before.state.IsTerminal()
    && (after.state == WaitingChildren ==> before.state == WaitingChildren)
  }

  lemma RewriteKeepsFlow(s: QueueState, t: QueueState, asleep: set<JobId>)
    requires FlowUpTo(s, asleep)
    requires t.jobs.Keys == s.jobs.Keys && forall id | id in s.jobs :: SameFlowJob(s.jobs[id], t.jobs[id])
    ensures FlowUpTo(t, asleep)
  {
    forall id | Unlisted(s, id) ensures Unlisted(t, id) {
      forall p | p in t.jobs ensures id !in t.jobs[p].childIds { assert SameFlowJob(s.jobs[p], t.jobs[p]); }
    }
    forall p, c | p in t.jobs && c in t.jobs[p].childIds && c in t.jobs ensures t.jobs[c].parentId == Some(p) {
      assert SameFlowJob(s.jobs[p], t.jobs[p]) && SameFlowJob(s.jobs[c], t.jobs[c]);
    }
    forall p, c | p in t.jobs && FailsParentOutright(t, c, p) ensures Unlisted(t, p) {
      assert SameFlowJob(s.jobs[c], t.jobs[c]);
      assert FailsParentOutright(s, c, p);
    }
    forall p | IsParked(t, p) && p !in asleep ensures exists c :: Blocking(t, p, c) {
      assert SameFlowJob(s.jobs[p], t.jobs[p]) && IsParked(s, p);
      var c :| Blocking(s, p, c);
      assert Blocking(t, p, c);
    }
  }

  lemma PutKeepsFlow(s: QueueState, id: JobId, job: Job, asleep: set<JobId>)
    requires FlowUpTo(s, asleep) && id in s.jobs && SameFlowJob(s.jobs[id], job)
    ensures FlowUpTo(Put(s, id, job), asleep)
  {
    RewriteKeepsFlow(s, Put(s, id, job), asleep);
  }

  lemma PutInOrderKeepsFlow(s: QueueState, id: JobId, job: Job, asleep: set<JobId>)
    requires FlowUpTo(s, asleep) && id in s.jobs && SameFlowJob(s.jobs[id], job)
    ensures FlowUpTo(PutInOrder(s, id, job), asleep)
  {
    RewriteKeepsFlow(s, PutInOrder(s, id, job), asleep);
  }

  // -- Storing a new job ----------------------------------------------------------------

  lemma InsertKeepsFlow(s: QueueState, job: Job, asleep: set<JobId>)
    requires FlowUpTo(s, asleep) && job.id !in s.jobs && Unlisted(s, job.id)
    requires job.parentId.None? && job.childIds == [] && job.state != WaitingChildren
    ensures FlowUpTo(Insert(s, job), asleep)
  {
    var t := Insert(s, job);
    forall id | Unlisted(s, id) ensures Unlisted(t, id) {}
    forall p, c | p in t.jobs && FailsParentOutright(t, c, p) ensures Unlisted(t, p) {
      assert FailsParentOutright(s, c, p);
      if p in s.jobs { assert Unlisted(s, p); }
    }
    forall p | IsParked(t, p) && p !in asleep ensures exists c :: Blocking(t, p, c) {
      assert IsParked(s, p);
      var c :| Blocking(s, p, c);
      assert Blocking(t, p, c);
    }
  }

  /** A job id that no stored parent still lists: nobody waits for a removed job of that name. */
  ghost predicate NotReused(s: QueueState, id: JobId)
  {
    id in s.jobs || Unlisted(s, id)
  }

  lemma ExtendKeepsFlow(s: QueueState, candidate: Job, id: JobId, now: Time)
    requires Flow(s)
    ensures Flow(ExtendExpiration(s, candidate, id, now))
  {
    if ExtendExpiration(s, candidate, id, now) != s {
      PutKeepsFlow(s, id, s.jobs[id].(deduplicationExpiresAt := DeduplicationExpiration(candidate.options, now)), {});
    }
  }

  /** `add_at`'s outcomes: nothing, an extended owner, a new job, or a replaced delayed owner. */
  lemma AddJobCases(s: QueueState, job: Job, now: Time)
    ensures var t := AddJob(s, job, now).state;
            var owner := FindDeduplicationOwner(s, job, now);
            || t == s
            || (owner.Some? && t == ExtendExpiration(s, job, owner.value, now))
            || (job.id !in s.jobs && owner.None? && FindRepeatOwner(s, job).None? && t == Insert(s, job))
            || (job.id !in s.jobs && owner.Some? && ReplacesDelayedOwner(job, s.jobs[owner.value])
                && t == Insert(Remove(s, owner.value), PreserveExpiration(job, s.jobs[owner.value])))
  {
  }

  lemma ReplaceKeepsFlow(s: QueueState, ownerId: JobId, job: Job)
    requires Core(s) && Flow(s) && ownerId in s.jobs && s.jobs[ownerId].parentId.None?
    requires job.id !in s.jobs && IsNew(job) && job.parentId.None? && Unlisted(s, job.id)
    ensures Flow(Insert(Remove(s, ownerId), job))
  {
    RemoveIsRemoveAll(s, ownerId);
    RemoveKeepsFlow(s, {ownerId}, {});
    RemoveIsCalm(s, ownerId);
    CalmKeepsStructure(s, Remove(s, ownerId));
    InsertKeepsFlow(Remove(s, ownerId), job, {});
  }

  lemma AddJobKeepsFlow(s: QueueState, job: Job, now: Time)
    requires Core(s) && Flow(s) && IsNew(job) && job.parentId.None? && NotReused(s, job.id)
    ensures Flow(AddJob(s, job, now).state)
  {
    AddJobCases(s, job, now);
    var t := AddJob(s, job, now).state;
    var owner := FindDeduplicationOwner(s, job, now);
    if t == s {
    } else if owner.Some? && t == ExtendExpiration(s, job, owner.value, now) {
      ExtendKeepsFlow(s, job, owner.value, now);
    } else if owner.None? {
      InsertKeepsFlow(s, job, {});
    } else {
      ReplaceKeepsFlow(s, owner.value, PreserveExpiration(job, s.jobs[owner.value]));
    }
  }

  lemma InsertKeepsNotReused(s: QueueState, job: Job, id: JobId)
    requires NotReused(s, id) && job.childIds == [] && job.id !in s.jobs
    ensures NotReused(Insert(s, job), id)
  {
  }

  lemma ReplacementKeepsNotReused(s: QueueState, ownerId: JobId, job: Job, id: JobId)
    requires Linked(s) && NotReused(s, id) && job.childIds == [] && job.id !in s.jobs && ownerId in s.jobs
    ensures s.jobs[ownerId].parentId.None? ==> NotReused(Insert(Remove(s, ownerId), job), id)
  {
    RemoveIsRemoveAll(s, ownerId);
    if s.jobs[ownerId].parentId.None? { InsertKeepsNotReused(Remove(s, ownerId), job, id); }
  }

  /** Adding a job never brings a reuse about. */
  lemma AddJobKeepsNotReused(s: QueueState, job: Job, now: Time, id: JobId)
    requires Linked(s) && NotReused(s, id) && job.childIds == []
    ensures NotReused(AddJob(s, job, now).state, id)
  {
    AddJobCases(s, job, now);
    var owner := FindDeduplicationOwner(s, job, now);
    if job.id in s.jobs {
    } else if owner.Some? {
      ReplacementKeepsNotReused(s, owner.value, PreserveExpiration(job, s.jobs[owner.value]), id);
      assert NotReused(ExtendExpiration(s, job, owner.value, now), id);
    } else {
      InsertKeepsNotReused(s, job, id);
    }
  }

  lemma AddKeepsFlow(s: QueueState, spec: JobSpec, uuid: JobId, now: Time)
    requires Core(s) && Flow(s) && uuid != "" && NotReused(s, NewJob(s.queue, spec, uuid, now).id)
    ensures Flow(Add(s, spec, uuid, now).state)
  {
    if spec.options.ValidAt(now) {
      NewJobIsNew(s.queue, spec, uuid, now);
      AddJobKeepsFlow(s, NewJob(s.queue, spec, uuid, now), now);
    }
  }

  lemma {:induction false} AddJobsKeepsFlow(s: QueueState, jobs: seq<Job>, now: Time)
    requires Core(s) && Flow(s)
    requires forall k | 0 <= k < |jobs| :: IsNew(jobs[k]) && jobs[k].parentId.None? && NotReused(s, jobs[k].id)
    ensures Flow(AddJobs(s, jobs, now).state)
    ensures forall id | NotReused(s, id) :: NotReused(AddJobs(s, jobs, now).state, id)
    decreases |jobs|
  {
    if jobs != [] {
      var n := |jobs| - 1;
      AddJobsKeepsFlow(s, jobs[..n], now);
      AddJobsKeeps(s, jobs[..n], now);
      var before := AddJobs(s, jobs[..n], now).state;
      AddJobKeepsFlow(before, jobs[n], now);
      forall id | NotReused(s, id) ensures NotReused(AddJobs(s, jobs, now).state, id) {
        AddJobKeepsNotReused(before, jobs[n], now, id);
      }
    }
  }

  lemma AddManyKeepsFlow(s: QueueState, specs: seq<JobSpec>, uuids: seq<JobId>, now: Time)
    requires Core(s) && Flow(s) && |specs| == |uuids| && "" !in uuids
    requires forall k | 0 <= k < |specs| :: NotReused(s, NewJob(s.queue, specs[k], uuids[k], now).id)
    ensures Flow(AddMany(s, specs, uuids, now).state)
  {
    if forall k | 0 <= k < |specs| :: specs[k].options.ValidAt(now) {
      var jobs := NewJobs(s.queue, specs, uuids, now);
      forall k | 0 <= k < |jobs| ensures IsNew(jobs[k]) && jobs[k].parentId.None? && NotReused(s, jobs[k].id) {
        NewJobIsNew(s.queue, specs[k], uuids[k], now);
      }
      AddJobsKeepsFlow(s, jobs, now);
    }
  }

  // -- Flows ----------------------------------------------------------------------------

  /** The record of one attached child. */
  predicate IsAttached(s: QueueState, t: QueueState, parentId: JobId, child: Job)
  {
    && child.id in t.jobs
    && t.jobs[child.id] == if child.id in s.jobs then s.jobs[child.id].(parentId := Some(parentId))
                           else child.(enqueuedSeq := t.jobs[child.id].enqueuedSeq)
  }

  /** What attaching children does to the stored jobs. */
  ghost predicate AttachedAll(s: QueueState, t: QueueState, parentId: JobId, children: seq<Job>)
  {
    && t.queue == s.queue
    && (forall id | id in s.jobs && id !in Ids(children) :: id in t.jobs && t.jobs[id] == s.jobs[id])
    && (forall id | id in t.jobs :: id in s.jobs || id in Ids(children))
    && (forall k | 0 <= k < |children| :: IsAttached(s, t, parentId, children[k]))
  }

  lemma JoinedChildFrame(s: QueueState, parentId: JobId, child: Job)
    requires child.id in s.jobs
    ensures AttachChild(s, parentId, child).queue == s.queue
    ensures AttachChild(s, parentId, child).jobs == s.jobs[child.id := s.jobs[child.id].(parentId := Some(parentId))]
  {
  }

  lemma AttachChildFrame(s: QueueState, parentId: JobId, child: Job)
    ensures var t := AttachChild(s, parentId, child);
            && t.queue == s.queue && t.jobs.Keys == s.jobs.Keys + {child.id}
            && (forall id | id in s.jobs && id != child.id :: t.jobs[id] == s.jobs[id])
            && IsAttached(s, t, parentId, child)
  {
    if child.id in s.jobs { JoinedChildFrame(s, parentId, child); }
  }

  lemma AttachOneMore(s: QueueState, before: QueueState, parentId: JobId, children: seq<Job>, child: Job)
    requires AttachedAll(s, before, parentId, children) && child.id !in Ids(children)
    ensures AttachedAll(s, AttachChild(before, parentId, child), parentId, children + [child])
  {
    var t := AttachChild(before, parentId, child);
    AttachChildFrame(before, parentId, child);
    var all := children + [child];
    assert Ids(all) == Ids(children) + [child.id];
    assert child.id in before.jobs <==> child.id in s.jobs;
    forall k | 0 <= k < |all| ensures IsAttached(s, t, parentId, all[k]) {
      if k < |children| {
        assert IsAttached(s, before, parentId, children[k]) && Ids(children)[k] == children[k].id;
      }
    }
  }

  lemma LastChildIsNew(parentId: JobId, children: seq<Job>)
    requires AreChildren(parentId, children) && children != []
    ensures AreChildren(parentId, children[..|children| - 1])
    ensures children[|children| - 1].id !in Ids(children[..|children| - 1])
  {
  }

  lemma AttachLast(s: QueueState, t: QueueState, parentId: JobId, children: seq<Job>)
    requires AreChildren(parentId, children) && children != []
    requires AttachedAll(s, t, parentId, children[..|children| - 1])
    ensures AttachedAll(s, AttachChild(t, parentId, children[|children| - 1]), parentId, children)
  {
    var n := |children| - 1;
    LastChildIsNew(parentId, children);
    AttachOneMore(s, t, parentId, children[..n], children[n]);
    assert children[..n] + [children[n]] == children;
  }

  lemma {:induction false} AttachFrame(s: QueueState, parentId: JobId, children: seq<Job>)
    requires AreChildren(parentId, children)
    ensures AttachedAll(s, AttachChildren(s, parentId, children), parentId, children)
    decreases |children|
  {
    if children != [] {
      var n := |children| - 1;
      LastChildIsNew(parentId, children);
      AttachFrame(s, parentId, children[..n]);
      AttachLast(s, AttachChildren(s, parentId, children[..n]), parentId, children);
    }
  }

  /** Options a submitted child will have: its stored record's, if it reuses one. */
  function JoiningOptions(s: QueueState, child: Job): JobOptions
  {
    if child.id in s.jobs then s.jobs[child.id].options else child.options
  }

  /**
    When children may join parent `parentId`: no removed id is reused; below a
    parent that is itself a child, every child has a failure policy; and a job
    that becomes a child has no children of its own without one.
   */
  ghost predicate MayJoin(s: QueueState, parentId: JobId, children: seq<Job>)
  {
    && NotReused(s, parentId)
    && (forall k | 0 <= k < |children| :: NotReused(s, children[k].id))
    && (Unlisted(s, parentId) || forall k | 0 <= k < |children| :: JoiningOptions(s, children[k]).HasFailurePolicy())
    && (forall k, y | 0 <= k < |children| :: !FailsParentOutright(s, y, children[k].id))
  }

  /** The parent record about to be stored, and who may be listed by it. */
  ghost predicate IsJoiningParent(s: QueueState, parentId: JobId, parent: Job, children: seq<Job>)
  {
    && parent.id == parentId
    && (parentId in s.jobs ==> (&& parent.parentId == s.jobs[parentId].parentId
                                && parent.options == s.jobs[parentId].options
                                && parent.state.IsTerminal() == s.jobs[parentId].state.IsTerminal()))
    && (parentId !in s.jobs ==> parent.parentId.None?)
    && (forall c | c in parent.childIds :: c in Ids(children) || (parentId in s.jobs && c in s.jobs[parentId].childIds))
    && (forall k, p | 0 <= k < |children| && p in s.jobs && p != parentId :: children[k].id !in s.jobs[p].childIds)
  }

  lemma JoinedUnlisted(s: QueueState, t: QueueState, parentId: JobId, parent: Job, children: seq<Job>, seqno: nat, id: JobId)
    requires AreChildren(parentId, children) && IsJoiningParent(s, parentId, parent, children)
    requires AttachedAll(Put(s, parentId, parent.(enqueuedSeq := seqno)), t, parentId, children)
    requires Unlisted(s, id) && id !in Ids(children)
    ensures Unlisted(t, id)
  {
    forall p | p in t.jobs ensures id !in t.jobs[p].childIds {
      if p in Ids(children) {
        var k :| 0 <= k < |children| && Ids(children)[k] == p;
        assert IsAttached(Put(s, parentId, parent.(enqueuedSeq := seqno)), t, parentId, children[k]);
      }
    }
  }

  /** The parent a job of the joined state lists names it, wherever the job came from. */
  lemma JoinedLinked(s: QueueState, t: QueueState, parentId: JobId, parent: Job, children: seq<Job>, seqno: nat)
    requires AreChildren(parentId, children) && IsJoiningParent(s, parentId, parent, children)
    requires AttachedAll(Put(s, parentId, parent.(enqueuedSeq := seqno)), t, parentId, children)
    requires Linked(s) && NotReused(s, parentId)
    ensures Linked(t)
  {
    forall p, c | p in t.jobs && c in t.jobs[p].childIds && c in t.jobs ensures t.jobs[c].parentId == Some(p) {
      JoinedLink(s, t, parentId, parent, children, seqno, p, c);
    }
  }

  lemma JoinedLink(s: QueueState, t: QueueState, parentId: JobId, parent: Job, children: seq<Job>, seqno: nat, p: JobId, c: JobId)
    requires AreChildren(parentId, children) && IsJoiningParent(s, parentId, parent, children)
    requires AttachedAll(Put(s, parentId, parent.(enqueuedSeq := seqno)), t, parentId, children)
    requires Linked(s) && NotReused(s, parentId)
    requires p in t.jobs && c in t.jobs[p].childIds && c in t.jobs
    ensures t.jobs[c].parentId == Some(p)
  {
    var u := Put(s, parentId, parent.(enqueuedSeq := seqno));
    if p in Ids(children) {
      var k :| 0 <= k < |children| && Ids(children)[k] == p;
      assert IsAttached(u, t, parentId, children[k]) && p != parentId;
    }
    if c in Ids(children) {
      var k :| 0 <= k < |children| && Ids(children)[k] == c;
      assert IsAttached(u, t, parentId, children[k]);
      assert p == parentId;
    }
  }

  lemma JoinedPoliced(s: QueueState, t: QueueState, parentId: JobId, parent: Job, children: seq<Job>, seqno: nat)
    requires AreChildren(parentId, children) && IsJoiningParent(s, parentId, parent, children)
    requires AttachedAll(Put(s, parentId, parent.(enqueuedSeq := seqno)), t, parentId, children)
    requires Structure(s) && MayJoin(s, parentId, children)
    ensures PolicedNesting(t)
  {
    var u := Put(s, parentId, parent.(enqueuedSeq := seqno));
    forall p, c | p in t.jobs && FailsParentOutright(t, c, p) ensures Unlisted(t, p) {
      if c in Ids(children) {
        var k :| 0 <= k < |children| && Ids(children)[k] == c;
        assert IsAttached(u, t, parentId, children[k]);
        assert p == parentId && !JoiningOptions(s, children[k]).HasFailurePolicy();
        assert parentId !in Ids(children);
        JoinedUnlisted(s, t, parentId, parent, children, seqno, p);
      } else {
        assert c in s.jobs && FailsParentOutright(s, c, p);
        forall k | 0 <= k < |children| ensures Ids(children)[k] != p {
          assert !FailsParentOutright(s, c, children[k].id);
        }
        JoinedUnlisted(s, t, parentId, parent, children, seqno, p);
      }
    }
  }

  lemma JoinedParked(s: QueueState, t: QueueState, parentId: JobId, parent: Job, children: seq<Job>, seqno: nat, p: JobId)
    requires AreChildren(parentId, children)
    requires AttachedAll(Put(s, parentId, parent.(enqueuedSeq := seqno)), t, parentId, children)
    requires IsParked(t, p) && p != parentId
    ensures IsParked(s, p) && t.jobs[p].childIds == s.jobs[p].childIds
  {
    if p in Ids(children) {
      var k :| 0 <= k < |children| && Ids(children)[k] == p;
      assert IsAttached(Put(s, parentId, parent.(enqueuedSeq := seqno)), t, parentId, children[k]);
    }
  }

  lemma JoinedAwake(s: QueueState, t: QueueState, parentId: JobId, parent: Job, children: seq<Job>, seqno: nat)
    requires AreChildren(parentId, children) && IsJoiningParent(s, parentId, parent, children)
    requires AttachedAll(Put(s, parentId, parent.(enqueuedSeq := seqno)), t, parentId, children)
    requires Awake(s, {})
    ensures Awake(t, {parentId})
  {
    forall p | IsParked(t, p) && p !in {parentId} ensures exists c :: Blocking(t, p, c) {
      JoinedParked(s, t, parentId, parent, children, seqno, p);
      assert p !in {};
      var c :| Blocking(s, p, c);
      JoinedBlocks(s, t, parentId, parent, children, seqno, p, c);
    }
  }

  lemma JoinedBlocks(s: QueueState, t: QueueState, parentId: JobId, parent: Job, children: seq<Job>, seqno: nat, p: JobId, c: JobId)
    requires AreChildren(parentId, children) && IsJoiningParent(s, parentId, parent, children)
    requires AttachedAll(Put(s, parentId, parent.(enqueuedSeq := seqno)), t, parentId, children)
    requires Blocking(s, p, c) && p in t.jobs && t.jobs[p].childIds == s.jobs[p].childIds
    ensures Blocking(t, p, c)
  {
    if c in Ids(children) {
      var k :| 0 <= k < |children| && Ids(children)[k] == c;
      assert IsAttached(Put(s, parentId, parent.(enqueuedSeq := seqno)), t, parentId, children[k]);
    }
  }

  /** Storing the parent and attaching its children, before the parent's own release. */
  lemma JoinedKeepsFlow(s: QueueState, t: QueueState, parentId: JobId, parent: Job, children: seq<Job>, seqno: nat)
    requires AreChildren(parentId, children) && IsJoiningParent(s, parentId, parent, children)
    requires AttachedAll(Put(s, parentId, parent.(enqueuedSeq := seqno)), t, parentId, children)
    requires Flow(s) && MayJoin(s, parentId, children)
    ensures FlowUpTo(t, {parentId})
  {
    JoinedLinked(s, t, parentId, parent, children, seqno);
    JoinedPoliced(s, t, parentId, parent, children, seqno);
    JoinedAwake(s, t, parentId, parent, children, seqno);
  }

  // -- Submitting flows -------------------------------------------------------------------

  lemma {:induction false} NoConflictMeans(s: QueueState, parentId: JobId, listed: seq<JobId>, children: seq<Job>)
    requires FirstConflict(s, parentId, listed, children).None?
    ensures forall k | 0 <= k < |children| :: AttachConflict(s, parentId, listed, children[k].id).None?
    decreases |children|
  {
    if children != [] {
      NoConflictMeans(s, parentId, listed, children[..|children| - 1]);
      assert children == children[..|children| - 1] + [children[|children| - 1]];
    }
  }

  /** Children that pass the attach check are listed by no other stored parent. */
  lemma NoConflictListsOnlyHere(s: QueueState, parentId: JobId, listed: seq<JobId>, children: seq<Job>)
    requires Linked(s) && FirstConflict(s, parentId, listed, children).None?
    requires forall k | 0 <= k < |children| :: NotReused(s, children[k].id)
    ensures forall k, p | 0 <= k < |children| && p in s.jobs && p != parentId :: children[k].id !in s.jobs[p].childIds
  {
    NoConflictMeans(s, parentId, listed, children);
    forall k, p | 0 <= k < |children| && p in s.jobs && p != parentId ensures children[k].id !in s.jobs[p].childIds {
      assert AttachConflict(s, parentId, listed, children[k].id).None?;
    }
  }

  lemma SameFlowUnlisted(s: QueueState, t: QueueState, id: JobId)
    requires OnlyExpirations(s, t)
    ensures Unlisted(s, id) <==> Unlisted(t, id)
  {
    if Unlisted(s, id) { forall p | p in t.jobs ensures id !in t.jobs[p].childIds { assert t.jobs[p].childIds == s.jobs[p].childIds; } }
    if Unlisted(t, id) { forall p | p in s.jobs ensures id !in s.jobs[p].childIds { assert t.jobs[p].childIds == s.jobs[p].childIds; } }
  }

  lemma SameFlowKeeps(s: QueueState, t: QueueState, parentId: JobId, children: seq<Job>)
    requires OnlyExpirations(s, t) && Flow(s) && MayJoin(s, parentId, children)
    ensures Flow(t) && MayJoin(t, parentId, children)
  {
    forall id | id in s.jobs ensures SameFlowJob(s.jobs[id], t.jobs[id]) {}
    RewriteKeepsFlow(s, t, {});
    SameFlowUnlisted(s, t, parentId);
    forall k | 0 <= k < |children| ensures NotReused(t, children[k].id) { SameFlowUnlisted(s, t, children[k].id); }
    forall k, y | 0 <= k < |children| ensures !FailsParentOutright(t, y, children[k].id) {
      assert !FailsParentOutright(s, y, children[k].id);
    }
  }

  lemma MayJoinFewer(s: QueueState, parentId: JobId, children: seq<Job>, fewer: seq<Job>)
    requires MayJoin(s, parentId, children) && forall x | x in fewer :: x in children
    ensures MayJoin(s, parentId, fewer)
  {
    forall k | 0 <= k < |fewer| ensures exists j :: 0 <= j < |children| && children[j] == fewer[k] { assert fewer[k] in children; }
  }

  /** A stored parent and its new children, just before the parent is released. */
  lemma JoinAttachedFlow(s: QueueState, parentId: JobId, parent: Job, joining: seq<Job>)
    requires Core(s) && Flow(s) && MayJoin(s, parentId, joining) && AreChildren(parentId, joining)
    requires parentId in s.jobs && IsJoiningParent(s, parentId, parent, joining)
    requires WellFormedJob(parentId, parent) && ListsAtLeast(s, parentId, parent)
    requires parent.lockToken.None? || parent.lockToken == s.jobs[parentId].lockToken
    requires parent.enqueuedSeq == s.jobs[parentId].enqueuedSeq
    ensures var attached := AttachChildren(Put(s, parentId, parent), parentId, joining);
            Core(attached) && FlowUpTo(attached, {parentId})
  {
    var linked := Put(s, parentId, parent);
    assert linked == Put(s, parentId, parent.(enqueuedSeq := parent.enqueuedSeq));
    AttachFrame(linked, parentId, joining);
    var attached := AttachChildren(linked, parentId, joining);
    JoinedKeepsFlow(s, attached, parentId, parent, joining, parent.enqueuedSeq);
    PutKeeps(s, parentId, parent);
    AttachChildrenKeeps(linked, parentId, joining);
  }

  /** Shared by both ways of adding children to a stored parent. */
  lemma JoinFlowKeepsFlow(s: QueueState, parentId: JobId, parent: Job, joining: seq<Job>, now: Time)
    requires Core(s) && Flow(s) && MayJoin(s, parentId, joining) && AreChildren(parentId, joining)
    requires parentId in s.jobs && IsJoiningParent(s, parentId, parent, joining)
    requires WellFormedJob(parentId, parent) && ListsAtLeast(s, parentId, parent)
    requires parent.lockToken.None? || parent.lockToken == s.jobs[parentId].lockToken
    requires parent.enqueuedSeq == s.jobs[parentId].enqueuedSeq
    ensures Flow(JoinFlow(s, parentId, parent, joining, now))
  {
    JoinAttachedFlow(s, parentId, parent, joining);
    ReleaseParentKeepsFlow(AttachChildren(Put(s, parentId, parent), parentId, joining), parentId, now, {parentId});
    assert {parentId} - {parentId} == {};
  }

  /** Which children join, and how the stored parent is rewritten to list them. */
  lemma ScanPreparesJoin(s: QueueState, parentId: JobId, children: seq<Job>, taken: set<string>, now: Time)
    requires Core(s) && Flow(s) && MayJoin(s, parentId, children) && AreChildren(parentId, children)
    requires FirstConflict(s, parentId, if parentId in s.jobs then s.jobs[parentId].childIds else [], children).None?
    ensures var scan := ScanDeduplication(s, children, taken, now);
            var joining := Unskipped(children, scan.skipped);
            && Core(scan.state) && Flow(scan.state) && OnlyExpirations(s, scan.state)
            && AreChildren(parentId, joining) && MayJoin(scan.state, parentId, joining)
            && (forall k, p | 0 <= k < |joining| && p in scan.state.jobs && p != parentId :: joining[k].id !in scan.state.jobs[p].childIds)
  {
    var scan := ScanDeduplication(s, children, taken, now);
    var joining := Unskipped(children, scan.skipped);
    ScanKeeps(s, children, taken, now);
    SameFlowKeeps(s, scan.state, parentId, children);
    UnskippedAreChildren(parentId, children, scan.skipped);
    MayJoinFewer(scan.state, parentId, children, joining);
    NoConflictListsOnlyHere(s, parentId, if parentId in s.jobs then s.jobs[parentId].childIds else [], children);
    forall k, p | 0 <= k < |joining| && p in scan.state.jobs && p != parentId
      ensures joining[k].id !in scan.state.jobs[p].childIds
    {
      assert joining[k] in joining && joining[k] in children;
      var j :| 0 <= j < |children| && children[j] == joining[k];
      assert scan.state.jobs[p].childIds == s.jobs[p].childIds;
    }
  }

  lemma AddFlowToExistingKeepsFlow(s: QueueState, parentId: JobId, children: seq<Job>, now: Time)
    requires Core(s) && Flow(s) && parentId in s.jobs && AreChildren(parentId, children) && MayJoin(s, parentId, children)
    ensures Flow(AddFlowToExisting(s, parentId, children, now).state)
  {
    var listed := s.jobs[parentId].childIds;
    if FirstConflict(s, parentId, listed, children).None? {
      var scan := ScanDeduplication(s, children, {}, now);
      var joining := Unskipped(children, scan.skipped);
      ScanPreparesJoin(s, parentId, children, {}, now);
      if !scan.conflict && RepeatKeysFree(scan.state, Unstored(scan.state, joining)) {
        var stored := scan.state.jobs[parentId];
        assert WellFormedJob(parentId, stored);
        AppendNewContains(listed, Ids(joining));
        JoinFlowKeepsFlow(scan.state, parentId, stored.(childIds := AppendNew(listed, Ids(joining))), joining, now);
      }
    }
  }

  lemma ParkBehindKeepsFlow(s: QueueState, parentId: JobId, children: seq<Job>, now: Time)
    requires Core(s) && Flow(s) && AreChildren(parentId, children) && MayJoin(s, parentId, children)
    requires parentId in s.jobs && s.jobs[parentId].state == Active
    ensures Flow(ParkBehind(s, parentId, children, now).state)
  {
    var listed := s.jobs[parentId].childIds;
    if FirstConflict(s, parentId, listed, children).None? {
      var scan := ScanDeduplication(s, children, {}, now);
      var joining := Unskipped(children, scan.skipped);
      ScanPreparesJoin(s, parentId, children, {}, now);
      if !scan.conflict && RepeatKeysFree(scan.state, Unstored(scan.state, joining)) {
        var stored := scan.state.jobs[parentId];
        assert WellFormedJob(parentId, stored);
        AppendNewContains(listed, Ids(joining));
        JoinFlowKeepsFlow(scan.state, parentId, Parked(stored).(childIds := AppendNew(listed, Ids(joining))), joining, now);
      }
    }
  }

  /** A new root and its children, just before the root is released. */
  lemma StartAttachedFlow(s: QueueState, root: Job, joining: seq<Job>)
    requires Core(s) && Flow(s) && MayJoin(s, root.id, joining) && AreChildren(root.id, joining)
    requires root.id !in s.jobs && IsJoiningParent(s, root.id, root, joining)
    requires WellFormedJob(root.id, root) && root.state != Active && root.enqueuedSeq == 0
    ensures var attached := AttachChildren(Insert(s, root), root.id, joining);
            Core(attached) && FlowUpTo(attached, {root.id})
  {
    var inserted := Insert(s, root);
    AttachFrame(inserted, root.id, joining);
    var attached := AttachChildren(inserted, root.id, joining);
    var seqno := inserted.jobs[root.id].enqueuedSeq;
    assert AttachedAll(Put(s, root.id, root.(enqueuedSeq := seqno)), attached, root.id, joining) by {
      InsertedIsPut(s, root, attached, joining, seqno);
    }
    JoinedKeepsFlow(s, attached, root.id, root, joining, seqno);
    InsertKeeps(s, root);
    AttachChildrenKeeps(inserted, root.id, joining);
  }

  lemma StartFlowKeepsFlow(s: QueueState, root: Job, joining: seq<Job>, now: Time)
    requires Core(s) && Flow(s) && MayJoin(s, root.id, joining) && AreChildren(root.id, joining)
    requires root.id !in s.jobs && IsJoiningParent(s, root.id, root, joining)
    requires WellFormedJob(root.id, root) && root.state != Active && root.enqueuedSeq == 0
    ensures Flow(StartFlow(s, root, joining, now))
  {
    StartAttachedFlow(s, root, joining);
    ReleaseParentKeepsFlow(AttachChildren(Insert(s, root), root.id, joining), root.id, now, {root.id});
    assert {root.id} - {root.id} == {};
  }

  lemma SameJobsAttached(s: QueueState, u: QueueState, t: QueueState, parentId: JobId, children: seq<Job>)
    requires AttachedAll(s, t, parentId, children) && u.jobs == s.jobs && u.queue == s.queue
    ensures AttachedAll(u, t, parentId, children)
  {
    forall k | 0 <= k < |children| ensures IsAttached(u, t, parentId, children[k]) {
      assert IsAttached(s, t, parentId, children[k]);
    }
  }

  lemma InsertedIsPut(s: QueueState, root: Job, t: QueueState, joining: seq<Job>, seqno: nat)
    requires AttachedAll(Insert(s, root), t, root.id, joining) && seqno == Insert(s, root).jobs[root.id].enqueuedSeq
    ensures AttachedAll(Put(s, root.id, root.(enqueuedSeq := seqno)), t, root.id, joining)
  {
    InsertStores(s, root);
    SameJobsAttached(Insert(s, root), Put(s, root.id, root.(enqueuedSeq := seqno)), t, root.id, joining);
  }

  lemma AddNewFlowKeepsFlow(s: QueueState, parent: Job, children: seq<Job>, now: Time)
    requires Core(s) && Flow(s) && parent.id !in s.jobs && IsNew(parent) && parent.parentId.None?
    requires AreChildren(parent.id, children) && MayJoin(s, parent.id, children)
    ensures Flow(AddNewFlow(s, parent, children, now).state)
  {
    var owner := FindDeduplicationOwner(s, parent, now);
    if owner.Some? {
      ExtendKeepsFlow(s, parent, owner.value, now);
    } else if FirstConflict(s, parent.id, [], children).None? {
      var taken := if ActiveDeduplicationId(parent, now).Some? then {ActiveDeduplicationId(parent, now).value} else {};
      var scan := ScanDeduplication(s, children, taken, now);
      var joining := Unskipped(children, scan.skipped);
      ScanPreparesJoin(s, parent.id, children, taken, now);
      var root := RootJob(parent, joining, now);
      if !scan.conflict && RepeatKeysFree(scan.state, [root] + Unstored(scan.state, joining)) {
        RootJobWellFormed(parent, joining, now);
        StartFlowKeepsFlow(scan.state, root, joining, now);
      }
    }
  }
}
