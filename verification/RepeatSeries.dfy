/**
  Repeat series: at most one live job per repeat key, and no series outlives its
  limit.
 */
module RepeatSeries {
  import opened Ordering
  import opened JobTypes
  import opened QueueModel
  import opened CoreInvariant
  import opened CoreSubmit
  import opened CoreLifecycle
  import opened Operations
  import opened Steps
  import opened FanInSubmit
  import opened FanInRuns
  import Descendants

  /** At most one unfinished job owns each repeat key. */
  ghost predicate UniqueRepeats(s: QueueState)
  {
    forall a, b, key | IsRepeatOwner(s, a, key) && IsRepeatOwner(s, b, key) :: a == b
  }

  /** Nobody owns a key that did not own it before. */
  ghost predicate NoNewRepeats(s: QueueState, t: QueueState)
  {
    forall id, key | IsRepeatOwner(t, id, key) :: IsRepeatOwner(s, id, key)
  }

  /** Then looking an owner up does not depend on the order of the hash map. */
  lemma RepeatLookupIsDetermined(s: QueueState, key: string, a: JobId, b: JobId)
    requires UniqueRepeats(s) && a in RepeatOwners(s, key) && b in RepeatOwners(s, key)
    ensures a == b && Find(s, RepeatOwners(s, key)) == Some(a)
  {
    assert IsRepeatOwner(s, a, key) && IsRepeatOwner(s, b, key);
    var picked := Find(s, RepeatOwners(s, key));
    assert picked.Some?;
    assert IsRepeatOwner(s, picked.value, key);
  }

  /** With unique owners, every delayed job with a repeat key is the one a lookup finds. */
  lemma DelayedRepeatsOwn(s: QueueState)
    requires UniqueRepeats(s)
    ensures forall id | id in s.jobs && s.jobs[id].state == Delayed :: IsDelayedRepeatOwner(s, id) <==> s.jobs[id].repeatKey.Some?
  {
    forall id | id in s.jobs && s.jobs[id].state == Delayed && s.jobs[id].repeatKey.Some?
      ensures Find(s, RepeatOwners(s, s.jobs[id].repeatKey.value)) == Some(id)
    {
      assert IsRepeatOwner(s, id, s.jobs[id].repeatKey.value);
      RepeatLookupIsDetermined(s, s.jobs[id].repeatKey.value, id, id);
    }
  }

  lemma NoNewKeepsUnique(s: QueueState, t: QueueState)
    requires UniqueRepeats(s) && NoNewRepeats(s, t)
    ensures UniqueRepeats(t)
  {
  }

  lemma CalmOwnsNothingNew(s: QueueState, t: QueueState)
    requires Calm(s, t)
    ensures NoNewRepeats(s, t)
  {
    forall id, key | IsRepeatOwner(t, id, key) ensures IsRepeatOwner(s, id, key) { assert CalmJob(s.jobs[id], t.jobs[id]); }
  }

  lemma NoNewTransitive(s: QueueState, t: QueueState, u: QueueState)
    requires NoNewRepeats(s, t) && NoNewRepeats(t, u)
    ensures NoNewRepeats(s, u)
  {
  }

  /** A record rewritten with the same key, finished if it was. */
  lemma PutOwnsNothingNew(s: QueueState, id: JobId, t: QueueState)
    requires id in s.jobs && t.jobs.Keys == s.jobs.Keys && forall x | x in s.jobs && x != id :: t.jobs[x] == s.jobs[x]
    requires t.jobs[id].repeatKey == s.jobs[id].repeatKey && (s.jobs[id].state.IsTerminal() ==> t.jobs[id].state.IsTerminal())
    ensures NoNewRepeats(s, t)
  {
  }

  /** A job takes a key nobody owns. */
  lemma InsertKeepsUnique(s: QueueState, t: QueueState, id: JobId)
    requires UniqueRepeats(s) && id in t.jobs
    requires forall x | x in t.jobs && x != id :: x in s.jobs && t.jobs[x] == s.jobs[x]
    requires ActiveRepeatKey(t.jobs[id]).Some? ==> forall x | x != id :: !IsRepeatOwner(s, x, ActiveRepeatKey(t.jobs[id]).value)
    ensures UniqueRepeats(t)
  {
    forall a, b, key | IsRepeatOwner(t, a, key) && IsRepeatOwner(t, b, key) ensures a == b {
      if a != id && b != id { assert IsRepeatOwner(s, a, key) && IsRepeatOwner(s, b, key); }
      else if a == id && b != id { assert IsRepeatOwner(s, b, key); }
      else if b == id && a != id { assert IsRepeatOwner(s, a, key); }
    }
  }

  // -- Submitting -----------------------------------------------------------------------

  lemma NoOwnerFound(s: QueueState, key: string, x: JobId)
    requires RepeatOwners(s, key) == {}
    ensures !IsRepeatOwner(s, x, key)
  {
    assert x !in RepeatOwners(s, key);
  }

  lemma AddUnlessRepeatingKeepsUnique(s: QueueState, job: Job)
    requires UniqueRepeats(s) && job.id !in s.jobs
    ensures UniqueRepeats(AddUnlessRepeating(s, job).state)
  {
    if FindRepeatOwner(s, job).None? {
      var t := Insert(s, job);
      if ActiveRepeatKey(job).Some? {
        forall x | x != job.id ensures !IsRepeatOwner(s, x, ActiveRepeatKey(job).value) { NoOwnerFound(s, ActiveRepeatKey(job).value, x); }
      }
      assert ActiveRepeatKey(t.jobs[job.id]) == ActiveRepeatKey(job);
      InsertKeepsUnique(s, t, job.id);
    }
  }

  lemma AddJobKeepsUnique(s: QueueState, job: Job, now: Time)
    requires Core(s) && UniqueRepeats(s)
    ensures UniqueRepeats(AddJob(s, job, now).state)
  {
    if job.id !in s.jobs {
      var owner := FindDeduplicationOwner(s, job, now);
      if owner.None? {
        AddUnlessRepeatingKeepsUnique(s, job);
      } else if ReplacesDelayedOwner(job, s.jobs[owner.value]) {
        RemoveIsCalm(s, owner.value);
        CalmOwnsNothingNew(s, Remove(s, owner.value));
        AddUnlessRepeatingKeepsUnique(Remove(s, owner.value), PreserveExpiration(job, s.jobs[owner.value]));
      } else {
        ExtendOwnsNothingNew(s, job, owner.value, now);
        NoNewKeepsUnique(s, ExtendExpiration(s, job, owner.value, now));
      }
    }
  }

  lemma ExtendOwnsNothingNew(s: QueueState, candidate: Job, id: JobId, now: Time)
    ensures NoNewRepeats(s, ExtendExpiration(s, candidate, id, now))
  {
  }

  lemma {:induction false} AddJobsKeepsUnique(s: QueueState, jobs: seq<Job>, now: Time)
    requires Core(s) && UniqueRepeats(s) && forall k | 0 <= k < |jobs| :: IsNew(jobs[k])
    ensures UniqueRepeats(AddJobs(s, jobs, now).state)
    decreases |jobs|
  {
    if jobs != [] {
      var n := |jobs| - 1;
      AddJobsKeepsUnique(s, jobs[..n], now);
      AddJobsKeeps(s, jobs[..n], now);
      AddJobKeepsUnique(AddJobs(s, jobs[..n], now).state, jobs[n], now);
    }
  }

  // -- Flows --------------------------------------------------------------------------------

  ghost predicate KeyFree(s: QueueState, key: string)
  {
    forall x :: !IsRepeatOwner(s, x, key)
  }

  /** The keys of the new jobs among `children` are free in `s` and distinct. */
  ghost predicate KeysFree(s: QueueState, children: seq<Job>)
  {
    && (forall k | 0 <= k < |children| && children[k].id !in s.jobs && ActiveRepeatKey(children[k]).Some?
          :: KeyFree(s, ActiveRepeatKey(children[k]).value))
    && (forall i, j | 0 <= i < j < |children| && children[i].id !in s.jobs && children[j].id !in s.jobs && ActiveRepeatKey(children[i]).Some?
          :: ActiveRepeatKey(children[i]) != ActiveRepeatKey(children[j]))
  }

  lemma NoOwnerMeansFree(s: QueueState, key: string)
    requires RepeatOwners(s, key) == {}
    ensures KeyFree(s, key)
  {
    forall x ensures !IsRepeatOwner(s, x, key) { NoOwnerFound(s, key, x); }
  }

  /** Relinking a stored child, or storing a new one with a free key. */
  lemma AttachKeepsUnique(s: QueueState, parentId: JobId, child: Job)
    requires UniqueRepeats(s)
    requires child.id !in s.jobs && ActiveRepeatKey(child).Some? ==> KeyFree(s, ActiveRepeatKey(child).value)
    ensures UniqueRepeats(AttachChild(s, parentId, child))
  {
    var t := AttachChild(s, parentId, child);
    AttachChildFrame(s, parentId, child);
    if child.id in s.jobs {
      PutOwnsNothingNew(s, child.id, t);
      NoNewKeepsUnique(s, t);
    } else {
      InsertKeepsUnique(s, t, child.id);
    }
  }

  /** Who owns a key after some children were attached. */
  lemma AttachedOwners(s: QueueState, t: QueueState, parentId: JobId, children: seq<Job>, x: JobId, key: string)
    requires AttachedAll(s, t, parentId, children) && IsRepeatOwner(t, x, key)
    ensures IsRepeatOwner(s, x, key)
         || exists k :: 0 <= k < |children| && children[k].id == x && x !in s.jobs && ActiveRepeatKey(children[k]) == Some(key)
  {
    if x in Ids(children) {
      var k :| 0 <= k < |children| && Ids(children)[k] == x;
      assert IsAttached(s, t, parentId, children[k]);
      assert children[k].id == x;
      if x !in s.jobs { assert ActiveRepeatKey(children[k]) == Some(key); }
    }
  }

  lemma {:induction false} AttachAllKeepsUnique(s: QueueState, parentId: JobId, children: seq<Job>)
    requires UniqueRepeats(s) && AreChildren(parentId, children) && KeysFree(s, children)
    ensures UniqueRepeats(AttachChildren(s, parentId, children))
    decreases |children|
  {
    if children != [] {
      var n := |children| - 1;
      forall k | 0 <= k < n ensures children[..n][k] == children[k] {}
      LastChildIsNew(parentId, children);
      AttachAllKeepsUnique(s, parentId, children[..n]);
      AttachFrame(s, parentId, children[..n]);
      AttachLastKeepsUnique(s, AttachChildren(s, parentId, children[..n]), parentId, children, n);
    }
  }

  lemma AttachLastKeepsUnique(s: QueueState, before: QueueState, parentId: JobId, children: seq<Job>, n: nat)
    requires n + 1 == |children| && AreChildren(parentId, children) && KeysFree(s, children)
    requires UniqueRepeats(before) && AttachedAll(s, before, parentId, children[..n]) && children[n].id !in Ids(children[..n])
    ensures UniqueRepeats(AttachChild(before, parentId, children[n]))
  {
    var child := children[n];
    assert child.id in before.jobs <==> child.id in s.jobs;
    if child.id !in s.jobs && ActiveRepeatKey(child).Some? {
      forall x ensures !IsRepeatOwner(before, x, ActiveRepeatKey(child).value) {
        if IsRepeatOwner(before, x, ActiveRepeatKey(child).value) {
          AttachedOwners(s, before, parentId, children[..n], x, ActiveRepeatKey(child).value);
        }
      }
    }
    AttachKeepsUnique(before, parentId, child);
  }

  lemma {:induction false} UnstoredContains(s: QueueState, children: seq<Job>)
    ensures forall x :: x in Unstored(s, children) <==> x in children && x.id !in s.jobs
    decreases |children|
  {
    if children != [] {
      var n := |children| - 1;
      UnstoredContains(s, children[..n]);
      assert children == children[..n] + [children[n]];
    }
  }

  lemma {:induction false} UnstoredOrder(s: QueueState, children: seq<Job>, i: nat, j: nat)
    requires i < j < |children| && children[i].id !in s.jobs && children[j].id !in s.jobs
    ensures exists a, b :: 0 <= a < b < |Unstored(s, children)| && Unstored(s, children)[a] == children[i] && Unstored(s, children)[b] == children[j]
    decreases |children|
  {
    var n := |children| - 1;
    var earlier := Unstored(s, children[..n]);
    var all := Unstored(s, children);
    assert all == earlier + (if children[n].id in s.jobs then [] else [children[n]]);
    assert children[..n][i] == children[i];
    if j < n {
      assert children[..n][j] == children[j];
      UnstoredOrder(s, children[..n], i, j);
      var a, b :| 0 <= a < b < |earlier| && earlier[a] == children[i] && earlier[b] == children[j];
      assert all[a] == children[i] && all[b] == children[j];
    } else {
      UnstoredContains(s, children[..n]);
      assert children[i] in earlier;
      var a :| 0 <= a < |earlier| && earlier[a] == children[i];
      assert all[a] == children[i] && all[|earlier|] == children[j];
    }
  }

  lemma FreeKeysAreFree(s: QueueState, jobs: seq<Job>, children: seq<Job>)
    requires RepeatKeysFree(s, jobs)
    requires jobs == Unstored(s, children)
    ensures KeysFree(s, children)
  {
    UnstoredContains(s, children);
    forall k | 0 <= k < |children| && children[k].id !in s.jobs && ActiveRepeatKey(children[k]).Some?
      ensures KeyFree(s, ActiveRepeatKey(children[k]).value)
    {
      assert children[k] in children;
      var i :| 0 <= i < |jobs| && jobs[i] == children[k];
      NoOwnerMeansFree(s, ActiveRepeatKey(jobs[i]).value);
    }
    forall i, j | 0 <= i < j < |children| && children[i].id !in s.jobs && children[j].id !in s.jobs && ActiveRepeatKey(children[i]).Some?
      ensures ActiveRepeatKey(children[i]) != ActiveRepeatKey(children[j])
    {
      UnstoredOrder(s, children, i, j);
      var a, b :| 0 <= a < b < |jobs| && jobs[a] == children[i] && jobs[b] == children[j];
    }
  }

  lemma SameFlowOwnsTheSame(s: QueueState, t: QueueState, x: JobId, key: string)
    requires OnlyExpirations(s, t)
    ensures IsRepeatOwner(t, x, key) <==> IsRepeatOwner(s, x, key)
  {
    if x in s.jobs { assert t.jobs[x] == s.jobs[x].(deduplicationExpiresAt := t.jobs[x].deduplicationExpiresAt); }
  }

  lemma ScanKeepsUnique(s: QueueState, children: seq<Job>, taken: set<string>, now: Time)
    requires Core(s) && UniqueRepeats(s)
    ensures UniqueRepeats(ScanDeduplication(s, children, taken, now).state)
  {
    ScanKeeps(s, children, taken, now);
    var t := ScanDeduplication(s, children, taken, now).state;
    forall id, key | IsRepeatOwner(t, id, key) ensures IsRepeatOwner(s, id, key) { SameFlowOwnsTheSame(s, t, id, key); }
    NoNewKeepsUnique(s, t);
  }

  lemma JoinKeepsUnique(s: QueueState, parentId: JobId, parent: Job, joining: seq<Job>, now: Time)
    requires Core(s) && UniqueRepeats(s) && AreChildren(parentId, joining) && parentId in s.jobs && WellFormedJob(parentId, parent)
    requires ListsAtLeast(s, parentId, parent) && (parent.lockToken.None? || parent.lockToken == s.jobs[parentId].lockToken)
    requires parent.enqueuedSeq == s.jobs[parentId].enqueuedSeq
    requires parent.repeatKey == s.jobs[parentId].repeatKey && (s.jobs[parentId].state.IsTerminal() ==> parent.state.IsTerminal())
    requires RepeatKeysFree(s, Unstored(s, joining))
    ensures UniqueRepeats(JoinFlow(s, parentId, parent, joining, now))
  {
    var linked := Put(s, parentId, parent);
    PutKeeps(s, parentId, parent);
    PutOwnsNothingNew(s, parentId, linked);
    NoNewKeepsUnique(s, linked);
    FreeKeysAreFree(s, Unstored(s, joining), joining);
    assert linked.jobs.Keys == s.jobs.Keys;
    assert KeysFree(linked, joining);
    AttachAllKeepsUnique(linked, parentId, joining);
    AttachChildrenKeeps(linked, parentId, joining);
    var attached := AttachChildren(linked, parentId, joining);
    ReleaseParentIsCalm(attached, parentId, now);
    CalmOwnsNothingNew(attached, ReleaseParent(attached, parentId, now));
  }

  lemma GrownKeepsUnique(s: QueueState, parentId: JobId, children: seq<Job>, parked: bool, now: Time)
    requires Core(s) && UniqueRepeats(s) && parentId in s.jobs && AreChildren(parentId, children)
    requires parked ==> s.jobs[parentId].state == Active
    ensures var scan := ScanDeduplication(s, children, {}, now);
            var joining := Unskipped(children, scan.skipped);
            var stored := if parked then Parked(scan.state.jobs[parentId]) else scan.state.jobs[parentId];
            && UniqueRepeats(scan.state)
            && (RepeatKeysFree(scan.state, Unstored(scan.state, joining)) ==>
                  UniqueRepeats(JoinFlow(scan.state, parentId, stored.(childIds := AppendNew(s.jobs[parentId].childIds, Ids(joining))), joining, now)))
  {
    var scan := ScanDeduplication(s, children, {}, now);
    var joining := Unskipped(children, scan.skipped);
    ScanKeeps(s, children, {}, now);
    ScanKeepsUnique(s, children, {}, now);
    UnskippedAreChildren(parentId, children, scan.skipped);
    assert WellFormedJob(parentId, scan.state.jobs[parentId]) && WellFormedJob(parentId, s.jobs[parentId]);
    AppendNewContains(s.jobs[parentId].childIds, Ids(joining));
    var stored := if parked then Parked(scan.state.jobs[parentId]) else scan.state.jobs[parentId];
    if RepeatKeysFree(scan.state, Unstored(scan.state, joining)) {
      JoinKeepsUnique(scan.state, parentId, stored.(childIds := AppendNew(s.jobs[parentId].childIds, Ids(joining))), joining, now);
    }
  }

  lemma StartKeepsUnique(s: QueueState, root: Job, joining: seq<Job>, now: Time)
    requires Core(s) && UniqueRepeats(s) && AreChildren(root.id, joining) && root.id !in s.jobs && WellFormedJob(root.id, root)
    requires root.state != Active && root.enqueuedSeq == 0
    requires RepeatKeysFree(s, [root] + Unstored(s, joining))
    ensures UniqueRepeats(StartFlow(s, root, joining, now))
  {
    var inserted := Insert(s, root);
    InsertKeeps(s, root);
    RootKeyFree(s, root, joining);
    InsertKeepsUnique(s, inserted, root.id);
    AttachAllKeepsUnique(inserted, root.id, joining);
    AttachChildrenKeeps(inserted, root.id, joining);
    var attached := AttachChildren(inserted, root.id, joining);
    ReleaseParentIsCalm(attached, root.id, now);
    CalmOwnsNothingNew(attached, ReleaseParent(attached, root.id, now));
  }

  lemma RootKeyFree(s: QueueState, root: Job, joining: seq<Job>)
    requires root.id !in s.jobs && RepeatKeysFree(s, [root] + Unstored(s, joining))
    ensures ActiveRepeatKey(root).Some? ==> KeyFree(s, ActiveRepeatKey(root).value)
    ensures KeysFree(Insert(s, root), joining)
  {
    var rest := Unstored(s, joining);
    FirstKeyFree(s, root, rest);
    RestKeysFree(s, root, rest);
    FreeKeysAreFree(s, rest, joining);
    UnstoredContains(s, joining);
    InsertStores(s, root);
    forall k | 0 <= k < |joining| && joining[k].id !in Insert(s, root).jobs && ActiveRepeatKey(joining[k]).Some?
      ensures KeyFree(Insert(s, root), ActiveRepeatKey(joining[k]).value)
    {
      assert joining[k] in joining && joining[k] in rest;
      FreeBesideRoot(s, root, ActiveRepeatKey(joining[k]).value);
    }
  }

  lemma FirstKeyFree(s: QueueState, root: Job, rest: seq<Job>)
    requires RepeatKeysFree(s, [root] + rest)
    ensures ActiveRepeatKey(root).Some? ==> KeyFree(s, ActiveRepeatKey(root).value)
  {
    var all := [root] + rest;
    assert all[0] == root;
    if ActiveRepeatKey(root).Some? { NoOwnerMeansFree(s, ActiveRepeatKey(all[0]).value); }
  }

  /** The keys of the children are free, and none is the root's. */
  lemma RestKeysFree(s: QueueState, root: Job, rest: seq<Job>)
    requires RepeatKeysFree(s, [root] + rest)
    ensures RepeatKeysFree(s, rest)
    ensures forall child | child in rest && ActiveRepeatKey(child).Some? :: ActiveRepeatKey(root) != ActiveRepeatKey(child)
  {
    var all := [root] + rest;
    forall i | 0 <= i < |rest| ensures all[i + 1] == rest[i] {}
    forall child | child in rest && ActiveRepeatKey(child).Some? ensures ActiveRepeatKey(root) != ActiveRepeatKey(child) {
      var i :| 0 <= i < |rest| && rest[i] == child;
      assert all[0] == root && all[i + 1] == child && 0 < i + 1;
    }
  }

  lemma FreeBesideRoot(s: QueueState, root: Job, key: string)
    requires root.id !in s.jobs && KeyFree(s, key) && ActiveRepeatKey(root) != Some(key)
    ensures KeyFree(Insert(s, root), key)
  {
    var t := Insert(s, root);
    forall x ensures !IsRepeatOwner(t, x, key) { assert !IsRepeatOwner(s, x, key); }
  }

  lemma AddFlowKeepsUnique(s: QueueState, spec: JobSpec, uuid: JobId, specs: seq<JobSpec>, uuids: seq<JobId>, now: Time)
    requires Core(s) && UniqueRepeats(s) && |specs| == |uuids| && uuid != "" && "" !in uuids
    ensures UniqueRepeats(AddFlow(s, spec, uuid, specs, uuids, now).state)
  {
    if spec.options.ValidAt(now) && forall k | 0 <= k < |specs| :: specs[k].options.ValidAt(now) {
      var parent := NewJob(s.queue, spec, uuid, now);
      NewJobIsNew(s.queue, spec, uuid, now);
      var children := ChildJobs(s.queue, parent.id, specs, uuids, now);
      if NoDuplicates([parent.id] + Ids(children)) {
        ChildJobsAreChildren(s.queue, parent.id, specs, uuids, now);
        if parent.id in s.jobs { GrownKeepsUnique(s, parent.id, children, false, now); }
        else { AddNewFlowKeepsUnique(s, parent, children, now); }
      }
    }
  }

  lemma AddNewFlowKeepsUnique(s: QueueState, parent: Job, children: seq<Job>, now: Time)
    requires Core(s) && UniqueRepeats(s) && parent.id !in s.jobs && IsNew(parent) && AreChildren(parent.id, children)
    ensures UniqueRepeats(AddNewFlow(s, parent, children, now).state)
  {
    var owner := FindDeduplicationOwner(s, parent, now);
    if owner.Some? {
      ExtendOwnsNothingNew(s, parent, owner.value, now);
    } else if FirstConflict(s, parent.id, [], children).None? {
      var taken := if ActiveDeduplicationId(parent, now).Some? then {ActiveDeduplicationId(parent, now).value} else {};
      var scan := ScanDeduplication(s, children, taken, now);
      var joining := Unskipped(children, scan.skipped);
      ScanKeeps(s, children, taken, now);
      ScanKeepsUnique(s, children, taken, now);
      UnskippedAreChildren(parent.id, children, scan.skipped);
      var root := RootJob(parent, joining, now);
      if !scan.conflict && RepeatKeysFree(scan.state, [root] + Unstored(scan.state, joining)) {
        RootJobWellFormed(parent, joining, now);
        StartKeepsUnique(scan.state, root, joining, now);
      }
    }
  }

  lemma AddFlowChildrenKeepsUnique(s: QueueState, id: JobId, token: Token, specs: seq<JobSpec>, uuids: seq<JobId>, now: Time)
    requires Core(s) && UniqueRepeats(s) && |specs| == |uuids| && "" !in uuids
    ensures UniqueRepeats(AddFlowChildren(s, id, token, specs, uuids, now).state)
  {
    AddFlowChildrenCases(s, id, token, specs, uuids, now);
    var children := ChildJobs(s.queue, id, specs, uuids, now);
    if AddFlowChildren(s, id, token, specs, uuids, now).state != s { GrownKeepsUnique(s, id, children, true, now); }
  }

  // -- Finishing ---------------------------------------------------------------------------------

  /** A finished job frees its key. */
  lemma FinishFreesKey(s: QueueState, id: JobId, finished: Job, now: Time)
    requires Core(s) && UniqueRepeats(s) && id in s.jobs && !s.jobs[id].state.IsTerminal() && WellFormedJob(id, finished)
    requires finished.childIds == s.jobs[id].childIds && finished.repeatKey == s.jobs[id].repeatKey && finished.state.IsTerminal()
    requires finished.lockToken.None? && finished.enqueuedSeq == s.jobs[id].enqueuedSeq
    ensures var t := RetainFinished(RecordWithParent(Put(s, id, finished), finished), id, finished, now);
            && Core(t) && UniqueRepeats(t)
            && (finished.repeatKey.Some? ==> forall x :: !IsRepeatOwner(t, x, finished.repeatKey.value))
  {
    var stored := Put(s, id, finished);
    var t := RetainFinished(RecordWithParent(stored, finished), id, finished, now);
    FinishKeeps(s, id, finished, now);
    PutKeeps(s, id, finished);
    PutOwnsNothingNew(s, id, stored);
    FinishIsCalm(s, id, finished, now);
    CalmOwnsNothingNew(stored, t);
    NoNewTransitive(s, stored, t);
    NoNewKeepsUnique(s, t);
    if finished.repeatKey.Some? { FinishedFreesKey(s, stored, t, id, finished.repeatKey.value); }
  }

  lemma FinishedFreesKey(s: QueueState, stored: QueueState, t: QueueState, id: JobId, key: string)
    requires UniqueRepeats(s) && IsRepeatOwner(s, id, key) && NoNewRepeats(s, stored) && NoNewRepeats(stored, t)
    requires id in stored.jobs && stored.jobs[id].state.IsTerminal()
    ensures forall x :: !IsRepeatOwner(t, x, key)
  {
    forall x ensures !IsRepeatOwner(t, x, key) { assert IsRepeatOwner(t, x, key) ==> IsRepeatOwner(stored, x, key) && IsRepeatOwner(s, x, key); }
  }

  lemma CompleteKeepsUnique(s: QueueState, id: JobId, token: Token, value: Value, uuid: JobId, cronNext: Option<Time>, now: Time)
    requires Core(s) && UniqueRepeats(s) && uuid != "" && uuid !in s.jobs
    ensures UniqueRepeats(Complete(s, id, token, value, uuid, cronNext, now).state)
  {
    if Complete(s, id, token, value, uuid, cronNext, now).reply.Ok? {
      assert WellFormedJob(id, s.jobs[id]);
      var completed := CompletedJob(s.jobs[id], value, now);
      FinishFreesKey(s, id, completed, now);
      FinishKeeps(s, id, completed, now);
      var retained := RetainFinished(RecordWithParent(Put(s, id, completed), completed), id, completed, now);
      var next := NextRepeatJob(s.queue, completed, uuid, cronNext, now);
      var succeeded := if next.Some? then Insert(retained, next.value) else retained;
      if next.Some? {
        NextRepeatJobIsNew(s.queue, completed, uuid, cronNext, now);
        InsertKeeps(retained, next.value);
        InsertKeepsUnique(retained, succeeded, uuid);
      }
      if completed.parentId.Some? {
        ReleaseParentIsCalm(succeeded, completed.parentId.value, now);
        CalmOwnsNothingNew(succeeded, ReleaseParent(succeeded, completed.parentId.value, now));
      }
    }
  }

  lemma RetriedFailureKeepsUnique(s: QueueState, id: JobId, token: Token, error: string, allowRetry: bool, backoff: Duration, now: Time)
    requires UniqueRepeats(s) && RequireLease(s, id, token).None? && allowRetry && ShouldRetry(s.jobs[id])
    ensures UniqueRepeats(Fail(s, id, token, error, allowRetry, backoff, now).state)
  {
    var retrying := Put(s, id, RetryingJob(s.jobs[id], error, backoff, now));
    PutOwnsNothingNew(s, id, retrying);
    NoNewKeepsUnique(s, retrying);
  }

  lemma FinalFailureKeepsUnique(s: QueueState, id: JobId, token: Token, error: string, allowRetry: bool, backoff: Duration, now: Time)
    requires Core(s) && UniqueRepeats(s) && RequireLease(s, id, token).None? && !(allowRetry && ShouldRetry(s.jobs[id]))
    ensures UniqueRepeats(Fail(s, id, token, error, allowRetry, backoff, now).state)
  {
    assert WellFormedJob(id, s.jobs[id]);
    FailedKeepsUnique(s, id, FailedJob(s.jobs[id], error, now), now);
  }

  lemma FailKeepsUnique(s: QueueState, id: JobId, token: Token, error: string, allowRetry: bool, backoff: Duration, now: Time)
    requires Core(s) && UniqueRepeats(s)
    ensures UniqueRepeats(Fail(s, id, token, error, allowRetry, backoff, now).state)
  {
    if RequireLease(s, id, token).None? {
      if allowRetry && ShouldRetry(s.jobs[id]) {
        RetriedFailureKeepsUnique(s, id, token, error, allowRetry, backoff, now);
      } else {
        FinalFailureKeepsUnique(s, id, token, error, allowRetry, backoff, now);
      }
    }
  }

  lemma FailedKeepsUnique(s: QueueState, id: JobId, failed: Job, now: Time)
    requires Core(s) && UniqueRepeats(s) && id in s.jobs && s.jobs[id].state == Active && WellFormedJob(id, failed)
    requires failed.childIds == s.jobs[id].childIds && failed.repeatKey == s.jobs[id].repeatKey && failed.state == Failed
    requires failed.lockToken.None? && failed.enqueuedSeq == s.jobs[id].enqueuedSeq
    ensures UniqueRepeats(React(RetainFinished(RecordWithParent(Put(s, id, failed), failed), id, failed, now), failed, now))
  {
    var retained := RetainFinished(RecordWithParent(Put(s, id, failed), failed), id, failed, now);
    FinishFreesKey(s, id, failed, now);
    ReactIsCalm(retained, failed, now);
    CalmOwnsNothingNew(retained, React(retained, failed, now));
    NoNewKeepsUnique(retained, React(retained, failed, now));
  }

  lemma RecoverStalledKeepsUnique(s: QueueState, now: Time)
    requires Core(s) && UniqueRepeats(s)
    ensures UniqueRepeats(RecoverStalled(s, now).state)
  {
    var stalled := Sorted(StalledRanks(s, now), StalledRanks(s, now).Keys);
    var recovered := RecoverEach(s, stalled, now);
    RecoverEachKeeps(s, stalled, now);
    RecoverEachOwnsNothingNew(s, stalled, now);
    NoNewKeepsUnique(s, recovered);
    RecoveryAftermathIsCalm(recovered, FailedAmong(recovered, stalled), now);
    CalmOwnsNothingNew(recovered, RecoverStalled(s, now).state);
    NoNewKeepsUnique(recovered, RecoverStalled(s, now).state);
  }

  lemma RecoverEachOwnsNothingNew(s: QueueState, ids: seq<JobId>, now: Time)
    requires NoDuplicates(ids) && forall id | id in ids :: id in s.jobs && s.jobs[id].state == Active
    ensures NoNewRepeats(s, RecoverEach(s, ids, now))
  {
    var recovered := RecoverEach(s, ids, now);
    RecoverEachFrame(s, ids, now);
    forall id, key | IsRepeatOwner(recovered, id, key) ensures IsRepeatOwner(s, id, key) {
      if id in ids { assert RecoveredFrom(s.jobs[id], recovered.jobs[id], now); }
    }
  }

  lemma PromoteDueOwnsNothingNew(s: QueueState, now: Time)
    ensures NoNewRepeats(s, PromoteDue(s, now).state)
  {
    var due := Sorted(DueRanks(s, now), DueRanks(s, now).Keys);
    PromoteEachFrame(s, due);
    forall id, key | IsRepeatOwner(PromoteEach(s, due), id, key) ensures IsRepeatOwner(s, id, key) {
      if id in due { assert s.jobs[id].state == Delayed; }
    }
  }

  lemma ClaimOwnsNothingNew(s: QueueState, worker: string, token: Token, leaseFor: Duration, now: Time)
    ensures NoNewRepeats(s, ClaimNext(s, worker, token, leaseFor, now).state)
  {
    if !s.paused {
      PromoteDueOwnsNothingNew(s, now);
      var promoted := PromoteDue(s, now).state;
      var id := Claimable(promoted);
      if id.Some? {
        assert id.value in ClaimableIds(promoted);
        var t := Put(promoted, id.value, Claimed(promoted.jobs[id.value], worker, token, leaseFor, now));
        PutOwnsNothingNew(promoted, id.value, t);
        NoNewTransitive(s, promoted, t);
      }
    }
  }

  // -- Management -----------------------------------------------------------------------------------

  lemma RetryKeepsUnique(s: QueueState, id: JobId, now: Time)
    requires Core(s) && UniqueRepeats(s)
    ensures UniqueRepeats(Retry(s, id, now).state)
  {
    if Retry(s, id, now).reply.Ok? {
      var waiting := PutInOrder(ForgetReleasedOwner(s, id, s.jobs[id]), id, RetriedJob(s.jobs[id], now));
      if s.jobs[id].repeatKey.Some? {
        forall x | x != id ensures !IsRepeatOwner(s, x, s.jobs[id].repeatKey.value) {
          assert x !in RepeatOwners(s, s.jobs[id].repeatKey.value) - {id};
        }
      }
      InsertKeepsUnique(s, waiting, id);
      if s.jobs[id].parentId.Some? {
        RestoreOwnsNothingNew(waiting, s.jobs[id].parentId.value, id);
        NoNewKeepsUnique(waiting, RestoreParent(waiting, s.jobs[id].parentId.value, id));
      }
    }
  }

  lemma RestoreOwnsNothingNew(s: QueueState, parentId: JobId, id: JobId)
    ensures NoNewRepeats(s, RestoreParent(s, parentId, id))
  {
    ClearTouchesNoJob(s, parentId, id);
  }

  lemma RemoveJobKeepsUnique(s: QueueState, id: JobId, now: Time)
    requires Core(s) && UniqueRepeats(s)
    ensures UniqueRepeats(RemoveJob(s, id, now).state)
  {
    if id in s.jobs {
      RemoveIsCalm(s, id);
      CalmOwnsNothingNew(s, Remove(s, id));
      if s.jobs[id].parentId.Some? {
        ReleaseParentIsCalm(Remove(s, id), s.jobs[id].parentId.value, now);
        CalmOwnsNothingNew(Remove(s, id), ReleaseParent(Remove(s, id), s.jobs[id].parentId.value, now));
      }
    }
  }

  lemma UpsertKeepsUnique(s: QueueState, spec: JobSpec, uuid: JobId, now: Time)
    requires Core(s) && UniqueRepeats(s)
    ensures UniqueRepeats(UpsertRepeat(s, spec, uuid, now).state)
  {
    if UpsertRepeat(s, spec, uuid, now).reply.Ok? {
      var job := NewJob(s.queue, spec, uuid, now);
      var key := job.repeatKey.value;
      var owner := Find(s, RepeatOwners(s, key));
      if owner.Some? {
        OwnerGoneFreesKey(s, owner.value, key);
        InsertOwnsUnique(Remove(s, owner.value), job);
      } else {
        forall x ensures !IsRepeatOwner(s, x, key) { NoOwnerFound(s, key, x); }
        InsertOwnsUnique(s, job);
      }
    }
  }

  lemma OwnerGoneFreesKey(s: QueueState, owner: JobId, key: string)
    requires Core(s) && UniqueRepeats(s) && Find(s, RepeatOwners(s, key)) == Some(owner)
    ensures UniqueRepeats(Remove(s, owner)) && KeyFree(Remove(s, owner), key)
  {
    RemoveIsCalm(s, owner);
    CalmOwnsNothingNew(s, Remove(s, owner));
    NoNewKeepsUnique(s, Remove(s, owner));
    forall x ensures !IsRepeatOwner(Remove(s, owner), x, key) {
      if IsRepeatOwner(s, x, key) { RepeatLookupIsDetermined(s, key, x, x); }
    }
  }

  lemma InsertOwnsUnique(s: QueueState, job: Job)
    requires UniqueRepeats(s) && (ActiveRepeatKey(job).Some? ==> KeyFree(s, ActiveRepeatKey(job).value))
    ensures UniqueRepeats(Insert(s, job))
  {
    InsertStores(s, job);
    InsertKeepsUnique(s, Insert(s, job), job.id);
  }

  lemma RemoveAllAndReleaseKeepsUnique(s: QueueState, ids: seq<JobId>, now: Time)
    requires Core(s) && UniqueRepeats(s)
    ensures UniqueRepeats(RemoveAllAndRelease(s, ids, now))
  {
    var removed := RemoveAll(s, Elements(ids));
    RemoveAllIsCalm(s, Elements(ids));
    ReleaseParentsIsCalm(removed, ParentsOf(s, ids), now);
    CalmTransitive(s, removed, RemoveAllAndRelease(s, ids, now));
    CalmOwnsNothingNew(s, RemoveAllAndRelease(s, ids, now));
  }

  lemma CleanKeepsUnique(s: QueueState, state: JobState, grace: Duration, limit: nat, now: Time)
    requires Core(s) && UniqueRepeats(s)
    ensures UniqueRepeats(Clean(s, state, grace, limit, now).state)
  {
    var ranks := CleanRanks(s, state, Earlier(now, grace));
    RemoveAllAndReleaseKeepsUnique(s, Take(Sorted(ranks, ranks.Keys), limit), now);
  }

  lemma DrainKeepsUnique(s: QueueState, includeDelayed: bool, now: Time)
    requires Core(s) && UniqueRepeats(s)
    ensures UniqueRepeats(Drain(s, includeDelayed, now).state)
  {
    var ranks := DrainRanks(s, includeDelayed);
    RemoveAllAndReleaseKeepsUnique(s, Sorted(ranks, ranks.Keys), now);
  }

  lemma RemoveUnprocessedKeepsUnique(s: QueueState, p: JobId, now: Time)
    requires Core(s) && UniqueRepeats(s)
    ensures UniqueRepeats(RemoveUnprocessedChildren(s, p, now).state)
  {
    if p in s.jobs {
      var ids := Elements(Descendants.Walk(s.jobs, s.jobs[p].childIds, {}).out);
      RemoveAllIsCalm(s, ids);
      CalmOwnsNothingNew(s, RemoveAll(s, ids));
      ReleaseParentIsCalm(RemoveAll(s, ids), p, now);
      CalmOwnsNothingNew(RemoveAll(s, ids), ReleaseParent(RemoveAll(s, ids), p, now));
    }
  }

  lemma DetachKeepsUnique(s: QueueState, c: JobId, now: Time)
    requires Core(s) && UniqueRepeats(s)
    ensures UniqueRepeats(RemoveChildDependency(s, c, now).state)
  {
    if RemoveChildDependency(s, c, now).reply == Ok(true) {
      var p := s.jobs[c].parentId.value;
      var t := Detached(s, p, c);
      DetachedFrame(s, p, c);
      DetachedKeeps(s, p, c);
      forall id, key | IsRepeatOwner(t, id, key) ensures IsRepeatOwner(s, id, key) {}
      NoNewKeepsUnique(s, t);
      ReleaseParentIsCalm(t, p, now);
      CalmOwnsNothingNew(t, ReleaseParent(t, p, now));
    }
  }

  // -- Every operation ---------------------------------------------------------------------------------

  lemma RewriteKeepsUnique(s: QueueState, op: Op)
    requires UniqueRepeats(s) && op.TouchesOne()
    ensures UniqueRepeats(Rewrite(s, op).state)
  {
    TouchedJobsAreRewritten(s, op);
    RewrittenOwnsNothingNew(s, Rewrite(s, op).state);
    NoNewKeepsUnique(s, Rewrite(s, op).state);
  }

  lemma RewrittenOwnsNothingNew(s: QueueState, t: QueueState)
    requires RewrittenAll(s, t)
    ensures NoNewRepeats(s, t)
  {
    forall id, key | IsRepeatOwner(t, id, key) ensures IsRepeatOwner(s, id, key) { assert Rewritten(s.jobs[id], t.jobs[id]); }
  }

  lemma SubmitKeepsUnique(s: QueueState, op: Op)
    requires Core(s) && UniqueRepeats(s) && op.WellFormed()
    requires op.Submits()
    ensures UniqueRepeats(Submission(s, op).state)
  {
    match op
    case OpAdd(spec, uuid, now) => AddJobKeepsUnique(s, NewJob(s.queue, spec, uuid, now), now);
    case OpAddMany(specs, uuids, now) =>
      if forall k | 0 <= k < |specs| :: specs[k].options.ValidAt(now) {
        var jobs := NewJobs(s.queue, specs, uuids, now);
        forall k | 0 <= k < |jobs| ensures IsNew(jobs[k]) { NewJobIsNew(s.queue, specs[k], uuids[k], now); }
        AddJobsKeepsUnique(s, jobs, now);
      }
    case OpAddFlow(parent, uuid, specs, uuids, now) => AddFlowKeepsUnique(s, parent, uuid, specs, uuids, now);
    case OpAddFlowChildren(id, token, specs, uuids, now) => AddFlowChildrenKeepsUnique(s, id, token, specs, uuids, now);
    case OpUpsertRepeat(spec, uuid, now) => UpsertKeepsUnique(s, spec, uuid, now);
  }

  lemma CleanUpKeepsUnique(s: QueueState, op: Op)
    requires Core(s) && UniqueRepeats(s) && op.CleansUp()
    ensures UniqueRepeats(Removal(s, op).state)
  {
    match op
    case OpRemoveChildDependency(id, now) => DetachKeepsUnique(s, id, now);
    case OpRemoveUnprocessedChildren(id, now) => RemoveUnprocessedKeepsUnique(s, id, now);
    case OpRemove(id, now) => RemoveJobKeepsUnique(s, id, now);
    case OpRemoveRepeat(key, now) =>
      var owner := Find(s, RepeatOwners(s, key));
      if owner.Some? { RemoveJobKeepsUnique(s, owner.value, now); }
    case OpClean(state, grace, limit, now) => CleanKeepsUnique(s, state, grace, limit, now);
    case OpDrain(includeDelayed, now) => DrainKeepsUnique(s, includeDelayed, now);
  }

  lemma WorkKeepsUnique(s: QueueState, op: Op)
    requires Core(s) && UniqueRepeats(s) && op.Works() && op.WellFormed() && FreshIds(s, op)
    ensures UniqueRepeats(Work(s, op).state)
  {
    match op
    case OpPromoteDue(now) => PromoteDueOwnsNothingNew(s, now);
    case OpClaim(worker, token, leaseFor, now) => ClaimOwnsNothingNew(s, worker, token, leaseFor, now);
    case OpComplete(id, token, value, uuid, cronNext, now) => CompleteKeepsUnique(s, id, token, value, uuid, cronNext, now);
    case OpFail(id, token, error, allowRetry, backoff, now) => FailKeepsUnique(s, id, token, error, allowRetry, backoff, now);
    case OpRecoverStalled(now) => RecoverStalledKeepsUnique(s, now);
    case OpRetry(id, now) => RetryKeepsUnique(s, id, now);
  }

  /** Every operation keeps repeat owners unique. */
  lemma StepKeepsUniqueRepeats(s: QueueState, op: Op)
    requires Core(s) && UniqueRepeats(s) && op.WellFormed() && FreshIds(s, op)
    ensures UniqueRepeats(Step(s, op).state)
  {
    if op.Submits() {
      SubmitKeepsUnique(s, op);
    } else if op.CleansUp() {
      CleanUpKeepsUnique(s, op);
    } else if op.TouchesOne() {
      RewriteKeepsUnique(s, op);
    } else {
      WorkKeepsUnique(s, op);
    }
  }

  /** Ids and tokens the environment generates are not in use. */
  ghost predicate FreshIdsRun(s: QueueState, ops: seq<Op>)
    decreases |ops|
  {
    ops == [] || (ops[0].WellFormed() && FreshIds(s, ops[0]) && FreshIdsRun(Step(s, ops[0]).state, ops[1..]))
  }

  /** Over every run, at most one unfinished job exists per repeat key, and every count stays below its limit. */
  lemma {:induction false} RepeatOwnerIsUnique(s: QueueState, ops: seq<Op>)
    requires forall k | 0 <= k < |ops| :: ops[k].WellFormed()
    requires Core(s) && UniqueRepeats(s) && FreshIdsRun(s, ops)
    ensures var t := Run(s, ops); Core(t) && UniqueRepeats(t)
    decreases |ops|
  {
    if ops != [] {
      StepKeepsCore(s, ops[0]);
      StepKeepsUniqueRepeats(s, ops[0]);
      RepeatOwnerIsUnique(Step(s, ops[0]).state, ops[1..]);
    }
  }

  // -- Limits ---------------------------------------------------------------------------------------------

  /** `after` is the occurrence that completing `before` creates. */
  ghost predicate Succeeds(queue: string, before: Job, after: Job)
  {
    exists uuid, cronNext, now :: NextRepeatJob(queue, before, uuid, cronNext, now) == Some(after)
  }

  /** A chain of occurrences, each created by completing the one before. */
  ghost predicate IsChain(queue: string, chain: seq<Job>)
  {
    forall k | 0 <= k < |chain| - 1 :: Succeeds(queue, chain[k], chain[k + 1])
  }

  lemma {:induction false} ChainCounts(queue: string, chain: seq<Job>, k: nat)
    requires k < |chain| && IsChain(queue, chain)
    ensures chain[k].repeatCount == chain[0].repeatCount + k
    ensures chain[k].options.repeat == chain[0].options.repeat
    ensures k > 0 && chain[0].options.repeat.Some? && chain[0].options.repeat.value.limit.Some?
            ==> chain[k].repeatCount < chain[0].options.repeat.value.limit.value
  {
    if k > 0 {
      ChainCounts(queue, chain, k - 1);
      assert Succeeds(queue, chain[k - 1], chain[k]);
    }
  }

  /** A series that starts at its first occurrence never has more of them than its limit. */
  lemma ChainsAreLimited(queue: string, chain: seq<Job>)
    requires chain != [] && IsChain(queue, chain) && chain[0].repeatCount == 0 && chain[0].options.Valid()
    requires chain[0].options.repeat.Some? && chain[0].options.repeat.value.limit.Some?
    ensures |chain| <= chain[0].options.repeat.value.limit.value
  {
    ChainCounts(queue, chain, |chain| - 1);
  }
}
