/**
  Deduplication ids: at most one unreleased job owns each id, now and at any
  later time, so the unordered owner lookup is determined.
 */
module DeduplicationOwnership {
  import opened Ordering
  import opened JobTypes
  import opened QueueModel
  import opened CoreInvariant
  import opened CoreSubmit
  import opened CoreLifecycle
  import opened Operations
  import opened Steps
  import opened FanInSubmit
  import opened FanInRuns
  import Descendants

  /** At most one unreleased job owns each deduplication id at time `now`. */
  ghost predicate UniqueOwners(s: QueueState, now: Time)
  {
    forall a, b, d | IsDeduplicationOwner(s, a, d, now) && IsDeduplicationOwner(s, b, d, now) :: a == b
  }

  /** Time only frees ids: unique now is unique later. */
  lemma UniqueStaysUnique(s: QueueState, now: Time, later: Time)
    requires UniqueOwners(s, now) && now <= later
    ensures UniqueOwners(s, later)
  {
    forall a, b, d | IsDeduplicationOwner(s, a, d, later) && IsDeduplicationOwner(s, b, d, later) ensures a == b {
      assert IsDeduplicationOwner(s, a, d, now) && IsDeduplicationOwner(s, b, d, now);
    }
  }

  /** Then looking an owner up does not depend on the order of the hash map. */
  lemma OwnerLookupIsDetermined(s: QueueState, d: string, now: Time, a: JobId)
    requires UniqueOwners(s, now) && a in DeduplicationOwners(s, d, now)
    ensures DeduplicationOwners(s, d, now) == {a} && Find(s, DeduplicationOwners(s, d, now)) == Some(a)
  {
    forall b | b in DeduplicationOwners(s, d, now) ensures b == a {
      assert IsDeduplicationOwner(s, a, d, now) && IsDeduplicationOwner(s, b, d, now);
    }
  }

  /** Nobody owns an id that did not own it before. */
  ghost predicate NoNewOwners(s: QueueState, t: QueueState, now: Time)
  {
    forall id, d | IsDeduplicationOwner(t, id, d, now) :: IsDeduplicationOwner(s, id, d, now)
  }

  lemma NoNewKeepsUnique(s: QueueState, t: QueueState, now: Time)
    requires UniqueOwners(s, now) && NoNewOwners(s, t, now)
    ensures UniqueOwners(t, now)
  {
  }

  lemma NoNewTransitive(s: QueueState, t: QueueState, u: QueueState, now: Time)
    requires NoNewOwners(s, t, now) && NoNewOwners(t, u, now)
    ensures NoNewOwners(s, u, now)
  {
  }

  lemma CalmOwnsNothingNew(s: QueueState, t: QueueState, now: Time)
    requires Calm(s, t)
    ensures NoNewOwners(s, t, now)
  {
    forall id, d | IsDeduplicationOwner(t, id, d, now) ensures IsDeduplicationOwner(s, id, d, now) {
      assert CalmJob(s.jobs[id], t.jobs[id]);
    }
  }

  /** A rewrite that cannot make the job an owner. */
  predicate OwnsNoMore(before: Job, after: Job)
  {
    && after.options.deduplication == before.options.deduplication
    && after.deduplicationExpiresAt == before.deduplicationExpiresAt
    && (before.state.IsTerminal() ==> after.state.IsTerminal())
  }

  lemma PutOwnsNothingNew(s: QueueState, id: JobId, t: QueueState, now: Time)
    requires id in s.jobs && t.jobs.Keys == s.jobs.Keys && forall x | x in s.jobs && x != id :: t.jobs[x] == s.jobs[x]
    requires t.releasedOwners == s.releasedOwners && OwnsNoMore(s.jobs[id], t.jobs[id])
    ensures NoNewOwners(s, t, now)
  {
  }

  ghost predicate IdFree(s: QueueState, d: string, now: Time)
  {
    forall x :: !IsDeduplicationOwner(s, x, d, now)
  }

  lemma NoOwnerMeansFree(s: QueueState, d: string, now: Time)
    requires DeduplicationOwners(s, d, now) == {}
    ensures IdFree(s, d, now)
  {
    forall x ensures !IsDeduplicationOwner(s, x, d, now) { assert x !in DeduplicationOwners(s, d, now); }
  }

  lemma FreeStaysFree(s: QueueState, t: QueueState, d: string, now: Time)
    requires IdFree(s, d, now) && NoNewOwners(s, t, now)
    ensures IdFree(t, d, now)
  {
  }

  /** Storing a new job leaves unique owners unique exactly when the id it takes is free. */
  lemma InsertKeepsUniqueIff(s: QueueState, job: Job, now: Time)
    requires UniqueOwners(s, now) && job.id !in s.jobs
    ensures UniqueOwners(Insert(s, job), now)
       <==> (ActiveDeduplicationId(job, now).Some? ==> IdFree(s, ActiveDeduplicationId(job, now).value, now))
  {
    var t := Insert(s, job);
    var d := ActiveDeduplicationId(job, now);
    assert ActiveDeduplicationId(t.jobs[job.id], now) == d;
    forall x, e | x != job.id ensures IsDeduplicationOwner(t, x, e, now) <==> IsDeduplicationOwner(s, x, e, now) {}
    if d.Some? {
      assert IsDeduplicationOwner(t, job.id, d.value, now);
      if !IdFree(s, d.value, now) {
        var x :| IsDeduplicationOwner(s, x, d.value, now);
        assert IsDeduplicationOwner(t, x, d.value, now) && x != job.id;
      }
    }
  }

  // -- Submitting -----------------------------------------------------------------------------

  lemma ExtendOwnsNothingNew(s: QueueState, candidate: Job, id: JobId, d: string, now: Time)
    requires IsDeduplicationOwner(s, id, d, now)
    ensures NoNewOwners(s, ExtendExpiration(s, candidate, id, now), now)
  {
  }

  /** A candidate that shares the id of the owner it replaces. */
  lemma ReplacementKeepsUnique(s: QueueState, ownerId: JobId, job: Job, now: Time)
    requires Core(s) && UniqueOwners(s, now) && job.id !in s.jobs
    requires DeduplicationId(job).Some? && IsDeduplicationOwner(s, ownerId, DeduplicationId(job).value, now)
    ensures UniqueOwners(Insert(Remove(s, ownerId), job), now)
  {
    var freed := Remove(s, ownerId);
    var d := DeduplicationId(job).value;
    RemoveIsCalm(s, ownerId);
    CalmOwnsNothingNew(s, freed, now);
    assert IdFree(freed, d, now) by {
      forall x ensures !IsDeduplicationOwner(freed, x, d, now) {
        assert IsDeduplicationOwner(s, x, d, now) ==> x == ownerId;
      }
    }
    InsertKeepsUniqueIff(freed, job, now);
  }

  lemma FoundOwnerOwns(s: QueueState, candidate: Job, now: Time)
    requires FindDeduplicationOwner(s, candidate, now).Some?
    ensures ActiveDeduplicationId(candidate, now).Some? && DeduplicationId(candidate) == ActiveDeduplicationId(candidate, now)
    ensures IsDeduplicationOwner(s, FindDeduplicationOwner(s, candidate, now).value, DeduplicationId(candidate).value, now)
  {
    assert FindDeduplicationOwner(s, candidate, now).value in DeduplicationOwners(s, ActiveDeduplicationId(candidate, now).value, now);
  }

  lemma NothingFoundMeansFree(s: QueueState, candidate: Job, now: Time)
    requires FindDeduplicationOwner(s, candidate, now).None?
    ensures ActiveDeduplicationId(candidate, now).Some? ==> IdFree(s, ActiveDeduplicationId(candidate, now).value, now)
  {
    if ActiveDeduplicationId(candidate, now).Some? { NoOwnerMeansFree(s, ActiveDeduplicationId(candidate, now).value, now); }
  }

  lemma AddJobKeepsUnique(s: QueueState, job: Job, now: Time)
    requires Core(s) && UniqueOwners(s, now)
    ensures UniqueOwners(AddJob(s, job, now).state, now)
  {
    AddJobCases(s, job, now);
    var owner := FindDeduplicationOwner(s, job, now);
    if job.id in s.jobs {
    } else if owner.None? {
      NothingFoundMeansFree(s, job, now);
      InsertKeepsUniqueIff(s, job, now);
    } else {
      FoundOwnerOwns(s, job, now);
      ExtendOwnsNothingNew(s, job, owner.value, DeduplicationId(job).value, now);
      NoNewKeepsUnique(s, ExtendExpiration(s, job, owner.value, now), now);
      ReplacementKeepsUnique(s, owner.value, PreserveExpiration(job, s.jobs[owner.value]), now);
    }
  }

  lemma {:induction false} AddJobsKeepsUnique(s: QueueState, jobs: seq<Job>, now: Time)
    requires Core(s) && UniqueOwners(s, now) && forall k | 0 <= k < |jobs| :: IsNew(jobs[k])
    ensures UniqueOwners(AddJobs(s, jobs, now).state, now)
    decreases |jobs|
  {
    if jobs != [] {
      var n := |jobs| - 1;
      AddJobsKeepsUnique(s, jobs[..n], now);
      AddJobsKeeps(s, jobs[..n], now);
      AddJobKeepsUnique(AddJobs(s, jobs[..n], now).state, jobs[n], now);
    }
  }

  // -- Flows --------------------------------------------------------------------------------------

  /** Child `child` will be stored, and will own an id. */
  predicate WillOwn(s: QueueState, child: Job, skipped: set<JobId>, now: Time)
  {
    child.id !in s.jobs && child.id !in skipped && ActiveDeduplicationId(child, now).Some?
  }

  /** The ids the unskipped new children will own are free, distinct, and all among those newly taken. */
  ghost predicate ScanIsFresh(s: QueueState, children: seq<Job>, scan: Scan, taken: set<string>, now: Time)
  {
    && NoNewOwners(s, scan.state, now) && scan.state.jobs.Keys == s.jobs.Keys && taken <= scan.taken
    && (forall k | 0 <= k < |children| && WillOwn(s, children[k], scan.skipped, now) ::
          var d := ActiveDeduplicationId(children[k], now).value; d in scan.taken && d !in taken && IdFree(scan.state, d, now))
    && (forall i, j | 0 <= i < j < |children| && WillOwn(s, children[i], scan.skipped, now) && WillOwn(s, children[j], scan.skipped, now)
          :: ActiveDeduplicationId(children[i], now) != ActiveDeduplicationId(children[j], now))
    && (forall c | c in scan.skipped :: c in Ids(children))
  }

  lemma {:induction false} ScanFinds(s: QueueState, parentId: JobId, children: seq<Job>, taken: set<string>, now: Time)
    requires AreChildren(parentId, children) && !ScanDeduplication(s, children, taken, now).conflict
    ensures ScanIsFresh(s, children, ScanDeduplication(s, children, taken, now), taken, now)
    decreases |children|
  {
    if children != [] {
      var n := |children| - 1;
      var before := ScanDeduplication(s, children[..n], taken, now);
      ScanFinds(s, parentId, children[..n], taken, now);
      ScanOneMore(s, children, before, taken, now);
    }
  }

  lemma LastIsNew(children: seq<Job>, parentId: JobId)
    requires AreChildren(parentId, children) && children != []
    ensures children[|children| - 1].id !in Ids(children[..|children| - 1])
  {
  }

  /** What scanning one child does to owners and to the scan's own books. */
  lemma ScanChildOwns(before: Scan, child: Job, now: Time)
    requires child.id !in before.skipped && !ScanChild(before, child, now).conflict
    ensures var scan := ScanChild(before, child, now);
            && !before.conflict && NoNewOwners(before.state, scan.state, now)
            && before.taken <= scan.taken && before.skipped <= scan.skipped <= before.skipped + {child.id}
            && (WillOwn(before.state, child, scan.skipped, now) ==>
                  var d := ActiveDeduplicationId(child, now).value;
                  d in scan.taken && d !in before.taken && IdFree(scan.state, d, now))
  {
    var d := ActiveDeduplicationId(child, now);
    if !before.conflict && child.id !in before.state.jobs && d.Some? {
      var owner := Find(before.state, DeduplicationOwners(before.state, d.value, now));
      if owner.Some? {
        assert owner.value in DeduplicationOwners(before.state, d.value, now);
        ExtendOwnsNothingNew(before.state, child, owner.value, d.value, now);
      } else {
        NoOwnerMeansFree(before.state, d.value, now);
      }
    }
  }

  lemma ScanOneMore(s: QueueState, children: seq<Job>, before: Scan, taken: set<string>, now: Time)
    requires children != [] && before == ScanDeduplication(s, children[..|children| - 1], taken, now)
    requires children[|children| - 1].id !in Ids(children[..|children| - 1])
    requires ScanIsFresh(s, children[..|children| - 1], before, taken, now) && !ScanDeduplication(s, children, taken, now).conflict
    ensures ScanIsFresh(s, children, ScanDeduplication(s, children, taken, now), taken, now)
  {
    var n := |children| - 1;
    var scan := ScanChild(before, children[n], now);
    assert scan == ScanDeduplication(s, children, taken, now);
    assert Ids(children) == Ids(children[..n]) + [children[n].id];
    ScanChildOwns(before, children[n], now);
    NoNewTransitive(s, before.state, scan.state, now);
    ScanStillFresh(s, children, before, scan, taken, now);
  }

  /** The bookkeeping of one more child. */
  lemma ScanStillFresh(s: QueueState, children: seq<Job>, before: Scan, scan: Scan, taken: set<string>, now: Time)
    requires children != []
    requires var n := |children| - 1;
             && ScanIsFresh(s, children[..n], before, taken, now) && NoNewOwners(before.state, scan.state, now)
             && NoNewOwners(s, scan.state, now) && scan.state.jobs.Keys == s.jobs.Keys
             && children[n].id !in Ids(children[..n]) && Ids(children) == Ids(children[..n]) + [children[n].id]
             && before.taken <= scan.taken && before.skipped <= scan.skipped <= before.skipped + {children[n].id}
             && (WillOwn(s, children[n], scan.skipped, now) ==>
                   var d := ActiveDeduplicationId(children[n], now).value;
                   d in scan.taken && d !in before.taken && IdFree(scan.state, d, now))
    ensures ScanIsFresh(s, children, scan, taken, now)
  {
    var n := |children| - 1;
    forall k | 0 <= k < n ensures children[..n][k] == children[k] && children[k].id != children[n].id
      && (WillOwn(s, children[k], scan.skipped, now) <==> WillOwn(s, children[k], before.skipped, now))
    {
      assert Ids(children[..n])[k] == children[k].id;
    }
    forall k | 0 <= k < |children| && WillOwn(s, children[k], scan.skipped, now)
      ensures var d := ActiveDeduplicationId(children[k], now).value; d in scan.taken && d !in taken && IdFree(scan.state, d, now)
    {
      if k < n {
        assert WillOwn(s, children[..n][k], before.skipped, now);
        FreeStaysFree(before.state, scan.state, ActiveDeduplicationId(children[k], now).value, now);
      }
    }
    forall i, j | 0 <= i < j < |children| && WillOwn(s, children[i], scan.skipped, now) && WillOwn(s, children[j], scan.skipped, now)
      ensures ActiveDeduplicationId(children[i], now) != ActiveDeduplicationId(children[j], now)
    {
      assert WillOwn(s, children[..n][i], before.skipped, now);
      if j < n { assert WillOwn(s, children[..n][j], before.skipped, now); }
    }
  }

  /** The ids the new jobs among `children` will own are free and distinct. */
  ghost predicate IdsFree(s: QueueState, children: seq<Job>, now: Time)
  {
    && (forall k | 0 <= k < |children| && WillOwn(s, children[k], {}, now) :: IdFree(s, ActiveDeduplicationId(children[k], now).value, now))
    && (forall i, j | 0 <= i < j < |children| && WillOwn(s, children[i], {}, now) && WillOwn(s, children[j], {}, now)
          :: ActiveDeduplicationId(children[i], now) != ActiveDeduplicationId(children[j], now))
  }

  /** Children kept by the scan, in order. */
  lemma {:induction false} UnskippedOrder(children: seq<Job>, skipped: set<JobId>, a: nat, b: nat)
    requires a < b < |Unskipped(children, skipped)|
    ensures exists i, j :: 0 <= i < j < |children| && children[i] == Unskipped(children, skipped)[a]
              && children[j] == Unskipped(children, skipped)[b] && children[i].id !in skipped && children[j].id !in skipped
    decreases |children|
  {
    var n := |children| - 1;
    var earlier := Unskipped(children[..n], skipped);
    if b < |earlier| {
      UnskippedOrder(children[..n], skipped, a, b);
      var i, j :| 0 <= i < j < n && children[..n][i] == earlier[a] && children[..n][j] == earlier[b]
                  && children[..n][i].id !in skipped && children[..n][j].id !in skipped;
      assert children[i] == earlier[a] && children[j] == earlier[b];
    } else {
      var i := UnskippedFrom(children[..n], skipped, a);
      assert children[i] == earlier[a] && children[n] == Unskipped(children, skipped)[b];
    }
  }

  lemma {:induction false} UnskippedFrom(children: seq<Job>, skipped: set<JobId>, a: nat) returns (i: nat)
    requires a < |Unskipped(children, skipped)|
    ensures i < |children| && children[i] == Unskipped(children, skipped)[a] && children[i].id !in skipped
    decreases |children|
  {
    var n := |children| - 1;
    if a < |Unskipped(children[..n], skipped)| {
      i := UnskippedFrom(children[..n], skipped, a);
    } else {
      i := n;
    }
  }

  lemma FreshScanFreesIds(s: QueueState, children: seq<Job>, scan: Scan, taken: set<string>, now: Time)
    requires ScanIsFresh(s, children, scan, taken, now)
    ensures IdsFree(scan.state, Unskipped(children, scan.skipped), now)
    ensures forall k | 0 <= k < |Unskipped(children, scan.skipped)| && WillOwn(scan.state, Unskipped(children, scan.skipped)[k], {}, now)
              :: ActiveDeduplicationId(Unskipped(children, scan.skipped)[k], now).value !in taken
  {
    var joining := Unskipped(children, scan.skipped);
    forall k | 0 <= k < |joining| && WillOwn(scan.state, joining[k], {}, now)
      ensures IdFree(scan.state, ActiveDeduplicationId(joining[k], now).value, now) && ActiveDeduplicationId(joining[k], now).value !in taken
    {
      var i := UnskippedFrom(children, scan.skipped, k);
      assert WillOwn(s, children[i], scan.skipped, now);
    }
    forall a, b | 0 <= a < b < |joining| && WillOwn(scan.state, joining[a], {}, now) && WillOwn(scan.state, joining[b], {}, now)
      ensures ActiveDeduplicationId(joining[a], now) != ActiveDeduplicationId(joining[b], now)
    {
      UnskippedOrder(children, scan.skipped, a, b);
      var i, j :| 0 <= i < j < |children| && children[i] == joining[a] && children[j] == joining[b]
                  && children[i].id !in scan.skipped && children[j].id !in scan.skipped;
      assert WillOwn(s, children[i], scan.skipped, now) && WillOwn(s, children[j], scan.skipped, now);
    }
  }

  // -- Attaching -----------------------------------------------------------------------------------

  lemma AttachKeepsUnique(s: QueueState, parentId: JobId, child: Job, now: Time)
    requires UniqueOwners(s, now)
    requires WillOwn(s, child, {}, now) ==> IdFree(s, ActiveDeduplicationId(child, now).value, now)
    ensures UniqueOwners(AttachChild(s, parentId, child), now)
  {
    var t := AttachChild(s, parentId, child);
    if child.id in s.jobs {
      AttachChildFrame(s, parentId, child);
      AttachReleasesNobody(s, parentId, child);
      PutOwnsNothingNew(s, child.id, t, now);
      NoNewKeepsUnique(s, t, now);
    } else {
      InsertKeepsUniqueIff(s, child, now);
    }
  }

  lemma AttachReleasesNobody(s: QueueState, parentId: JobId, child: Job)
    requires child.id in s.jobs
    ensures AttachChild(s, parentId, child).releasedOwners == s.releasedOwners
  {
  }

  /** Attaching makes owners of nobody but the child, if it is new. */
  lemma AttachOwns(s: QueueState, parentId: JobId, child: Job, x: JobId, d: string, now: Time)
    requires IsDeduplicationOwner(AttachChild(s, parentId, child), x, d, now)
    ensures IsDeduplicationOwner(s, x, d, now) || (x == child.id && x !in s.jobs && ActiveDeduplicationId(child, now) == Some(d))
  {
    AttachChildFrame(s, parentId, child);
    if child.id in s.jobs { AttachReleasesNobody(s, parentId, child); }
  }

  ghost predicate SomeWillOwn(s: QueueState, children: seq<Job>, d: string, now: Time)
  {
    exists k :: 0 <= k < |children| && WillOwn(s, children[k], {}, now) && ActiveDeduplicationId(children[k], now) == Some(d)
  }

  lemma MoreWillOwn(s: QueueState, children: seq<Job>, n: nat, d: string, now: Time)
    requires n < |children| && SomeWillOwn(s, children[..n], d, now)
    ensures SomeWillOwn(s, children, d, now)
  {
    var k :| 0 <= k < n && WillOwn(s, children[..n][k], {}, now) && ActiveDeduplicationId(children[..n][k], now) == Some(d);
    assert children[k] == children[..n][k];
  }

  lemma {:induction false} AttachedOwns(s: QueueState, parentId: JobId, children: seq<Job>, x: JobId, d: string, now: Time)
    requires AreChildren(parentId, children) && IsDeduplicationOwner(AttachChildren(s, parentId, children), x, d, now)
    ensures IsDeduplicationOwner(s, x, d, now) || SomeWillOwn(s, children, d, now)
    decreases |children|
  {
    if children != [] {
      var n := |children| - 1;
      var before := AttachChildren(s, parentId, children[..n]);
      AttachOwns(before, parentId, children[n], x, d, now);
      AttachFrame(s, parentId, children[..n]);
      LastIsNew(children, parentId);
      if IsDeduplicationOwner(before, x, d, now) {
        AttachedOwns(s, parentId, children[..n], x, d, now);
        if !IsDeduplicationOwner(s, x, d, now) { MoreWillOwn(s, children, n, d, now); }
      } else {
        assert WillOwn(s, children[n], {}, now);
      }
    }
  }

  lemma {:induction false} AttachAllKeepsUnique(s: QueueState, parentId: JobId, children: seq<Job>, now: Time)
    requires UniqueOwners(s, now) && AreChildren(parentId, children) && IdsFree(s, children, now)
    ensures UniqueOwners(AttachChildren(s, parentId, children), now)
    decreases |children|
  {
    if children != [] {
      var n := |children| - 1;
      var before := AttachChildren(s, parentId, children[..n]);
      assert forall k | 0 <= k < n :: children[..n][k] == children[k];
      AttachAllKeepsUnique(s, parentId, children[..n], now);
      AttachFrame(s, parentId, children[..n]);
      LastIsNew(children, parentId);
      NextIdFree(s, parentId, children, now);
      AttachKeepsUnique(before, parentId, children[n], now);
    }
  }

  /** The next child's id is still free after the others were attached. */
  lemma NextIdFree(s: QueueState, parentId: JobId, children: seq<Job>, now: Time)
    requires children != [] && AreChildren(parentId, children) && IdsFree(s, children, now)
    ensures var n := |children| - 1;
            var before := AttachChildren(s, parentId, children[..n]);
            WillOwn(before, children[n], {}, now) ==> IdFree(before, ActiveDeduplicationId(children[n], now).value, now)
  {
    var n := |children| - 1;
    var before := AttachChildren(s, parentId, children[..n]);
    AttachFrame(s, parentId, children[..n]);
    if WillOwn(before, children[n], {}, now) {
      var d := ActiveDeduplicationId(children[n], now).value;
      assert WillOwn(s, children[n], {}, now) && IdFree(s, d, now);
      forall k | 0 <= k < n && WillOwn(s, children[..n][k], {}, now) ensures ActiveDeduplicationId(children[..n][k], now) != Some(d) {
        assert children[..n][k] == children[k];
      }
      forall x ensures !IsDeduplicationOwner(before, x, d, now) {
        if IsDeduplicationOwner(before, x, d, now) { AttachedOwns(s, parentId, children[..n], x, d, now); }
      }
    }
  }

  lemma JoinKeepsUnique(s: QueueState, parentId: JobId, parent: Job, joining: seq<Job>, now: Time)
    requires Core(s) && UniqueOwners(s, now) && AreChildren(parentId, joining) && parentId in s.jobs && WellFormedJob(parentId, parent)
    requires ListsAtLeast(s, parentId, parent) && (parent.lockToken.None? || parent.lockToken == s.jobs[parentId].lockToken)
    requires parent.enqueuedSeq == s.jobs[parentId].enqueuedSeq && OwnsNoMore(s.jobs[parentId], parent)
    requires IdsFree(s, joining, now)
    ensures UniqueOwners(JoinFlow(s, parentId, parent, joining, now), now)
  {
    var linked := Put(s, parentId, parent);
    PutKeeps(s, parentId, parent);
    PutOwnsNothingNew(s, parentId, linked, now);
    NoNewKeepsUnique(s, linked, now);
    IdsStayFree(s, linked, joining, now);
    AttachAllKeepsUnique(linked, parentId, joining, now);
    AttachChildrenKeeps(linked, parentId, joining);
    var attached := AttachChildren(linked, parentId, joining);
    ReleaseParentIsCalm(attached, parentId, now);
    CalmOwnsNothingNew(attached, ReleaseParent(attached, parentId, now), now);
  }

  lemma IdsStayFree(s: QueueState, t: QueueState, children: seq<Job>, now: Time)
    requires IdsFree(s, children, now) && NoNewOwners(s, t, now) && s.jobs.Keys <= t.jobs.Keys
    ensures IdsFree(t, children, now)
  {
    forall k | 0 <= k < |children| && WillOwn(t, children[k], {}, now)
      ensures IdFree(t, ActiveDeduplicationId(children[k], now).value, now)
    {
      assert WillOwn(s, children[k], {}, now);
      FreeStaysFree(s, t, ActiveDeduplicationId(children[k], now).value, now);
    }
    forall i, j | 0 <= i < j < |children| && WillOwn(t, children[i], {}, now) && WillOwn(t, children[j], {}, now)
      ensures ActiveDeduplicationId(children[i], now) != ActiveDeduplicationId(children[j], now)
    {
      assert WillOwn(s, children[i], {}, now) && WillOwn(s, children[j], {}, now);
    }
  }

  lemma ScannedKeepsUnique(s: QueueState, parentId: JobId, children: seq<Job>, taken: set<string>, now: Time)
    requires Core(s) && UniqueOwners(s, now) && AreChildren(parentId, children)
    ensures UniqueOwners(ScanDeduplication(s, children, taken, now).state, now)
  {
    ScanOwnsNothingNew(s, children, taken, now);
    NoNewKeepsUnique(s, ScanDeduplication(s, children, taken, now).state, now);
  }

  /** Even a scan that ends in conflict extends expirations of present owners only. */
  lemma {:induction false} ScanOwnsNothingNew(s: QueueState, children: seq<Job>, taken: set<string>, now: Time)
    ensures NoNewOwners(s, ScanDeduplication(s, children, taken, now).state, now)
    decreases |children|
  {
    if children != [] {
      var n := |children| - 1;
      var before := ScanDeduplication(s, children[..n], taken, now);
      ScanOwnsNothingNew(s, children[..n], taken, now);
      var scan := ScanChild(before, children[n], now);
      if scan.state != before.state {
        var d := ActiveDeduplicationId(children[n], now).value;
        var owner := Find(before.state, DeduplicationOwners(before.state, d, now)).value;
        assert owner in DeduplicationOwners(before.state, d, now);
        ExtendOwnsNothingNew(before.state, children[n], owner, d, now);
      }
      NoNewTransitive(s, before.state, scan.state, now);
    }
  }

  lemma GrownKeepsUnique(s: QueueState, parentId: JobId, children: seq<Job>, parked: bool, now: Time)
    requires Core(s) && UniqueOwners(s, now) && parentId in s.jobs && AreChildren(parentId, children)
    requires parked ==> s.jobs[parentId].state == Active
    ensures var scan := ScanDeduplication(s, children, {}, now);
            var joining := Unskipped(children, scan.skipped);
            var stored := if parked then Parked(scan.state.jobs[parentId]) else scan.state.jobs[parentId];
            && UniqueOwners(scan.state, now)
            && (!scan.conflict ==>
                  UniqueOwners(JoinFlow(scan.state, parentId, stored.(childIds := AppendNew(s.jobs[parentId].childIds, Ids(joining))), joining, now), now))
  {
    var scan := ScanDeduplication(s, children, {}, now);
    var joining := Unskipped(children, scan.skipped);
    ScanKeeps(s, children, {}, now);
    ScannedKeepsUnique(s, parentId, children, {}, now);
    UnskippedAreChildren(parentId, children, scan.skipped);
    assert WellFormedJob(parentId, scan.state.jobs[parentId]) && WellFormedJob(parentId, s.jobs[parentId]);
    AppendNewContains(s.jobs[parentId].childIds, Ids(joining));
    var stored := if parked then Parked(scan.state.jobs[parentId]) else scan.state.jobs[parentId];
    if !scan.conflict {
      ScanFinds(s, parentId, children, {}, now);
      FreshScanFreesIds(s, children, scan, {}, now);
      JoinKeepsUnique(scan.state, parentId, stored.(childIds := AppendNew(s.jobs[parentId].childIds, Ids(joining))), joining, now);
    }
  }

  lemma StartKeepsUnique(s: QueueState, root: Job, joining: seq<Job>, now: Time)
    requires Core(s) && UniqueOwners(s, now) && AreChildren(root.id, joining) && root.id !in s.jobs && WellFormedJob(root.id, root)
    requires root.state != Active && root.enqueuedSeq == 0 && IdsFree(s, joining, now)
    requires ActiveDeduplicationId(root, now).Some? ==>
               && IdFree(s, ActiveDeduplicationId(root, now).value, now)
               && forall k | 0 <= k < |joining| && WillOwn(s, joining[k], {}, now) :: ActiveDeduplicationId(joining[k], now) != ActiveDeduplicationId(root, now)
    ensures UniqueOwners(StartFlow(s, root, joining, now), now)
  {
    var inserted := Insert(s, root);
    InsertKeeps(s, root);
    InsertKeepsUniqueIff(s, root, now);
    RootLeavesIdsFree(s, root, joining, now);
    AttachAllKeepsUnique(inserted, root.id, joining, now);
    AttachChildrenKeeps(inserted, root.id, joining);
    var attached := AttachChildren(inserted, root.id, joining);
    ReleaseParentIsCalm(attached, root.id, now);
    CalmOwnsNothingNew(attached, ReleaseParent(attached, root.id, now), now);
  }

  lemma RootLeavesIdsFree(s: QueueState, root: Job, joining: seq<Job>, now: Time)
    requires root.id !in s.jobs && IdsFree(s, joining, now)
    requires forall k | 0 <= k < |joining| && WillOwn(s, joining[k], {}, now) && ActiveDeduplicationId(root, now).Some?
               :: ActiveDeduplicationId(joining[k], now) != ActiveDeduplicationId(root, now)
    ensures IdsFree(Insert(s, root), joining, now)
  {
    var t := Insert(s, root);
    forall k | 0 <= k < |joining| && WillOwn(t, joining[k], {}, now)
      ensures IdFree(t, ActiveDeduplicationId(joining[k], now).value, now)
    {
      assert WillOwn(s, joining[k], {}, now);
      FreeBesideRoot(s, root, ActiveDeduplicationId(joining[k], now).value, now);
    }
    forall i, j | 0 <= i < j < |joining| && WillOwn(t, joining[i], {}, now) && WillOwn(t, joining[j], {}, now)
      ensures ActiveDeduplicationId(joining[i], now) != ActiveDeduplicationId(joining[j], now)
    {
      assert WillOwn(s, joining[i], {}, now) && WillOwn(s, joining[j], {}, now);
    }
  }

  lemma FreeBesideRoot(s: QueueState, root: Job, d: string, now: Time)
    requires root.id !in s.jobs && IdFree(s, d, now) && ActiveDeduplicationId(root, now) != Some(d)
    ensures IdFree(Insert(s, root), d, now)
  {
    InsertStores(s, root);
    forall x ensures !IsDeduplicationOwner(Insert(s, root), x, d, now) { assert !IsDeduplicationOwner(s, x, d, now); }
  }

  lemma AddNewFlowKeepsUnique(s: QueueState, parent: Job, children: seq<Job>, now: Time)
    requires Core(s) && UniqueOwners(s, now) && parent.id !in s.jobs && IsNew(parent) && AreChildren(parent.id, children)
    ensures UniqueOwners(AddNewFlow(s, parent, children, now).state, now)
  {
    var owner := FindDeduplicationOwner(s, parent, now);
    if owner.Some? {
      FoundOwnerOwns(s, parent, now);
      ExtendOwnsNothingNew(s, parent, owner.value, DeduplicationId(parent).value, now);
      NoNewKeepsUnique(s, ExtendExpiration(s, parent, owner.value, now), now);
    } else if FirstConflict(s, parent.id, [], children).None? {
      var taken := if ActiveDeduplicationId(parent, now).Some? then {ActiveDeduplicationId(parent, now).value} else {};
      var scan := ScanDeduplication(s, children, taken, now);
      ScannedKeepsUnique(s, parent.id, children, taken, now);
      ScanKeeps(s, children, taken, now);
      var joining := Unskipped(children, scan.skipped);
      var root := RootJob(parent, joining, now);
      if !scan.conflict && RepeatKeysFree(scan.state, [root] + Unstored(scan.state, joining)) {
        NewFlowIsUnique(s, parent, children, now);
      }
    }
  }

  lemma NewFlowIsUnique(s: QueueState, parent: Job, children: seq<Job>, now: Time)
    requires Core(s) && UniqueOwners(s, now) && parent.id !in s.jobs && IsNew(parent) && AreChildren(parent.id, children)
    requires FindDeduplicationOwner(s, parent, now).None?
    ensures var taken := if ActiveDeduplicationId(parent, now).Some? then {ActiveDeduplicationId(parent, now).value} else {};
            var scan := ScanDeduplication(s, children, taken, now);
            var joining := Unskipped(children, scan.skipped);
            !scan.conflict ==> UniqueOwners(StartFlow(scan.state, RootJob(parent, joining, now), joining, now), now)
  {
    var taken := if ActiveDeduplicationId(parent, now).Some? then {ActiveDeduplicationId(parent, now).value} else {};
    var scan := ScanDeduplication(s, children, taken, now);
    if !scan.conflict {
      var joining := Unskipped(children, scan.skipped);
      var root := RootJob(parent, joining, now);
      ScannedKeepsUnique(s, parent.id, children, taken, now);
      ScanKeeps(s, children, taken, now);
      ScanFinds(s, parent.id, children, taken, now);
      FreshScanFreesIds(s, children, scan, taken, now);
      NothingFoundMeansFree(s, parent, now);
      UnskippedAreChildren(parent.id, children, scan.skipped);
      RootJobWellFormed(parent, joining, now);
      assert ActiveDeduplicationId(root, now) == ActiveDeduplicationId(parent, now);
      if ActiveDeduplicationId(root, now).Some? { FreeStaysFree(s, scan.state, ActiveDeduplicationId(root, now).value, now); }
      StartKeepsUnique(scan.state, root, joining, now);
    }
  }

  lemma AddFlowKeepsUnique(s: QueueState, spec: JobSpec, uuid: JobId, specs: seq<JobSpec>, uuids: seq<JobId>, now: Time)
    requires Core(s) && UniqueOwners(s, now) && |specs| == |uuids| && uuid != "" && "" !in uuids
    ensures UniqueOwners(AddFlow(s, spec, uuid, specs, uuids, now).state, now)
  {
    if spec.options.ValidAt(now) && forall k | 0 <= k < |specs| :: specs[k].options.ValidAt(now) {
      var parent := NewJob(s.queue, spec, uuid, now);
      NewJobIsNew(s.queue, spec, uuid, now);
      var children := ChildJobs(s.queue, parent.id, specs, uuids, now);
      if NoDuplicates([parent.id] + Ids(children)) {
        ChildJobsAreChildren(s.queue, parent.id, specs, uuids, now);
        if parent.id in s.jobs { GrownKeepsUnique(s, parent.id, children, false, now); }
        else { AddNewFlowKeepsUnique(s, parent, children, now); }
      }
    }
  }

  lemma AddFlowChildrenKeepsUnique(s: QueueState, id: JobId, token: Token, specs: seq<JobSpec>, uuids: seq<JobId>, now: Time)
    requires Core(s) && UniqueOwners(s, now) && |specs| == |uuids| && "" !in uuids
    ensures UniqueOwners(AddFlowChildren(s, id, token, specs, uuids, now).state, now)
  {
    AddFlowChildrenCases(s, id, token, specs, uuids, now);
    var children := ChildJobs(s.queue, id, specs, uuids, now);
    if AddFlowChildren(s, id, token, specs, uuids, now).state != s { GrownKeepsUnique(s, id, children, true, now); }
  }

  // -- Finishing ---------------------------------------------------------------------------------------

  lemma FinishOwnsNothingNew(s: QueueState, id: JobId, finished: Job, now: Time)
    requires Core(s) && id in s.jobs && WellFormedJob(id, finished) && OwnsNoMore(s.jobs[id], finished)
    requires finished.childIds == s.jobs[id].childIds && finished.lockToken.None? && finished.enqueuedSeq == s.jobs[id].enqueuedSeq
    ensures NoNewOwners(s, RetainFinished(RecordWithParent(Put(s, id, finished), finished), id, finished, now), now)
  {
    var stored := Put(s, id, finished);
    PutKeeps(s, id, finished);
    PutOwnsNothingNew(s, id, stored, now);
    FinishIsCalm(s, id, finished, now);
    CalmNoNewTransitive(s, stored, RetainFinished(RecordWithParent(stored, finished), id, finished, now), now);
  }

  lemma CalmNoNewTransitive(s: QueueState, t: QueueState, u: QueueState, now: Time)
    requires NoNewOwners(s, t, now) && Core(t) && Calm(t, u)
    ensures NoNewOwners(s, u, now)
  {
    CalmOwnsNothingNew(t, u, now);
    NoNewTransitive(s, t, u, now);
  }

  lemma ReleaseKeepsUnique(s: QueueState, p: JobId, now: Time)
    requires Core(s) && UniqueOwners(s, now)
    ensures UniqueOwners(ReleaseParent(s, p, now), now)
  {
    ReleaseParentIsCalm(s, p, now);
    CalmOwnsNothingNew(s, ReleaseParent(s, p, now), now);
    NoNewKeepsUnique(s, ReleaseParent(s, p, now), now);
  }

  lemma RetriedFailureKeepsUnique(s: QueueState, id: JobId, token: Token, error: string, allowRetry: bool, backoff: Duration, now: Time)
    requires UniqueOwners(s, now) && RequireLease(s, id, token).None? && allowRetry && ShouldRetry(s.jobs[id])
    ensures UniqueOwners(Fail(s, id, token, error, allowRetry, backoff, now).state, now)
  {
    var retrying := Put(s, id, RetryingJob(s.jobs[id], error, backoff, now));
    PutOwnsNothingNew(s, id, retrying, now);
    NoNewKeepsUnique(s, retrying, now);
  }

  lemma FinalFailureKeepsUnique(s: QueueState, id: JobId, token: Token, error: string, allowRetry: bool, backoff: Duration, now: Time)
    requires Core(s) && UniqueOwners(s, now) && RequireLease(s, id, token).None? && !(allowRetry && ShouldRetry(s.jobs[id]))
    ensures UniqueOwners(Fail(s, id, token, error, allowRetry, backoff, now).state, now)
  {
    assert WellFormedJob(id, s.jobs[id]);
    FailedKeepsUnique(s, id, FailedJob(s.jobs[id], error, now), now);
  }

  lemma FailKeepsUnique(s: QueueState, id: JobId, token: Token, error: string, allowRetry: bool, backoff: Duration, now: Time)
    requires Core(s) && UniqueOwners(s, now)
    ensures UniqueOwners(Fail(s, id, token, error, allowRetry, backoff, now).state, now)
  {
    if RequireLease(s, id, token).None? {
      if allowRetry && ShouldRetry(s.jobs[id]) {
        RetriedFailureKeepsUnique(s, id, token, error, allowRetry, backoff, now);
      } else {
        FinalFailureKeepsUnique(s, id, token, error, allowRetry, backoff, now);
      }
    }
  }

  lemma FailedKeepsUnique(s: QueueState, id: JobId, failed: Job, now: Time)
    requires Core(s) && UniqueOwners(s, now) && id in s.jobs && s.jobs[id].state == Active && WellFormedJob(id, failed) && failed.state == Failed
    requires failed.childIds == s.jobs[id].childIds && OwnsNoMore(s.jobs[id], failed)
    requires failed.lockToken.None? && failed.enqueuedSeq == s.jobs[id].enqueuedSeq
    ensures UniqueOwners(React(RetainFinished(RecordWithParent(Put(s, id, failed), failed), id, failed, now), failed, now), now)
  {
    var retained := RetainFinished(RecordWithParent(Put(s, id, failed), failed), id, failed, now);
    FinishOwnsNothingNew(s, id, failed, now);
    FinishKeeps(s, id, failed, now);
    NoNewKeepsUnique(s, retained, now);
    ReactKeepsUnique(retained, failed, now);
  }

  lemma ReactKeepsUnique(s: QueueState, failed: Job, now: Time)
    requires Core(s) && UniqueOwners(s, now)
    ensures UniqueOwners(React(s, failed, now), now)
  {
    ReactIsCalm(s, failed, now);
    CalmOwnsNothingNew(s, React(s, failed, now), now);
    NoNewKeepsUnique(s, React(s, failed, now), now);
  }

  lemma RecoverEachOwnsNothingNew(s: QueueState, ids: seq<JobId>, now: Time)
    requires NoDuplicates(ids) && forall id | id in ids :: id in s.jobs && s.jobs[id].state == Active
    ensures NoNewOwners(s, RecoverEach(s, ids, now), now)
  {
    var t := RecoverEach(s, ids, now);
    RecoverEachFrame(s, ids, now);
    forall id | id in s.jobs ensures OwnsNoMore(s.jobs[id], t.jobs[id]) {
      if id in ids { assert RecoveredFrom(s.jobs[id], t.jobs[id], now); }
    }
  }

  lemma RecoverStalledOwnsNothingNew(s: QueueState, now: Time)
    requires Core(s)
    ensures NoNewOwners(s, RecoverStalled(s, now).state, now)
  {
    var stalled := Sorted(StalledRanks(s, now), StalledRanks(s, now).Keys);
    var recovered := RecoverEach(s, stalled, now);
    RecoverEachKeeps(s, stalled, now);
    RecoverEachOwnsNothingNew(s, stalled, now);
    RecoveryAftermathIsCalm(recovered, FailedAmong(recovered, stalled), now);
    CalmOwnsNothingNew(recovered, RecoverStalled(s, now).state, now);
    NoNewTransitive(s, recovered, RecoverStalled(s, now).state, now);
  }

  lemma PromoteDueOwnsNothingNew(s: QueueState, now: Time)
    ensures NoNewOwners(s, PromoteDue(s, now).state, now)
  {
    var due := Sorted(DueRanks(s, now), DueRanks(s, now).Keys);
    PromoteEachFrame(s, due);
    forall id, d | IsDeduplicationOwner(PromoteEach(s, due), id, d, now) ensures IsDeduplicationOwner(s, id, d, now) {
      if id in due { assert s.jobs[id].state == Delayed; }
    }
  }

  lemma ClaimOwnsNothingNew(s: QueueState, worker: string, token: Token, leaseFor: Duration, now: Time)
    ensures NoNewOwners(s, ClaimNext(s, worker, token, leaseFor, now).state, now)
  {
    if !s.paused {
      PromoteDueOwnsNothingNew(s, now);
      var promoted := PromoteDue(s, now).state;
      var id := Claimable(promoted);
      if id.Some? {
        assert id.value in ClaimableIds(promoted);
        var t := Put(promoted, id.value, Claimed(promoted.jobs[id.value], worker, token, leaseFor, now));
        PutOwnsNothingNew(promoted, id.value, t, now);
        NoNewTransitive(s, promoted, t, now);
      }
    }
  }

  // -- Management ------------------------------------------------------------------------------------------

  lemma RetryKeepsUnique(s: QueueState, id: JobId, now: Time)
    requires Core(s) && UniqueOwners(s, now)
    ensures UniqueOwners(Retry(s, id, now).state, now)
  {
    if Retry(s, id, now).reply.Ok? {
      var waiting := PutInOrder(ForgetReleasedOwner(s, id, s.jobs[id]), id, RetriedJob(s.jobs[id], now));
      RevivedKeepsUnique(s, id, now);
      if s.jobs[id].parentId.Some? {
        RestoreOwnsNothingNew(waiting, s.jobs[id].parentId.value, id, now);
        NoNewKeepsUnique(waiting, RestoreParent(waiting, s.jobs[id].parentId.value, id), now);
      }
    }
  }

  lemma RevivedKeepsUnique(s: QueueState, id: JobId, now: Time)
    requires UniqueOwners(s, now) && id in s.jobs && !RetryConflicts(s, id, now)
    ensures UniqueOwners(PutInOrder(ForgetReleasedOwner(s, id, s.jobs[id]), id, RetriedJob(s.jobs[id], now)), now)
  {
    var t := PutInOrder(ForgetReleasedOwner(s, id, s.jobs[id]), id, RetriedJob(s.jobs[id], now));
    forall x, e | x != id && IsDeduplicationOwner(t, x, e, now) ensures IsDeduplicationOwner(s, x, e, now) {}
    forall x, e | IsDeduplicationOwner(t, id, e, now) && IsDeduplicationOwner(t, x, e, now) ensures x == id {
      assert DeduplicationId(s.jobs[id]) == Some(e);
      assert x !in DeduplicationOwners(s, e, now) - {id};
    }
  }

  lemma RestoreOwnsNothingNew(s: QueueState, parentId: JobId, id: JobId, now: Time)
    ensures NoNewOwners(s, RestoreParent(s, parentId, id), now)
  {
    ClearTouchesNoJob(s, parentId, id);
  }

  lemma RemoveJobOwnsNothingNew(s: QueueState, id: JobId, now: Time)
    requires Core(s)
    ensures NoNewOwners(s, RemoveJob(s, id, now).state, now)
  {
    if id in s.jobs {
      RemoveIsCalm(s, id);
      CalmOwnsNothingNew(s, Remove(s, id), now);
      if s.jobs[id].parentId.Some? {
        ReleaseParentIsCalm(Remove(s, id), s.jobs[id].parentId.value, now);
        CalmTransitive(s, Remove(s, id), ReleaseParent(Remove(s, id), s.jobs[id].parentId.value, now));
        CalmOwnsNothingNew(s, ReleaseParent(Remove(s, id), s.jobs[id].parentId.value, now), now);
      }
    }
  }

  /** The upserted series owns its deduplication id alone: nobody had it, or the occurrence it replaces. */
  lemma UpsertKeepsUnique(s: QueueState, spec: JobSpec, uuid: JobId, now: Time)
    requires Core(s) && UniqueOwners(s, now)
    ensures UniqueOwners(UpsertRepeat(s, spec, uuid, now).state, now)
  {
    if UpsertRepeat(s, spec, uuid, now).reply.Ok? {
      var job := NewJob(s.queue, spec, uuid, now);
      ReplaceKeepsUnique(s, job, Find(s, RepeatOwners(s, job.repeatKey.value)), now);
    }
  }

  lemma ReplaceKeepsUnique(s: QueueState, job: Job, owner: Option<JobId>, now: Time)
    requires Core(s) && UniqueOwners(s, now) && (owner.Some? ==> owner.value in s.jobs)
    requires UpsertConflict(s, job, owner, now).None?
    ensures UniqueOwners(ReplaceRepeat(s, job, owner), now)
  {
    var freed := if owner.Some? then Remove(s, owner.value) else s;
    if owner.Some? {
      RemoveIsCalm(s, owner.value);
      CalmOwnsNothingNew(s, freed, now);
    }
    NoNewKeepsUnique(s, freed, now);
    if ActiveDeduplicationId(job, now).Some? { UpsertIdFree(s, job, owner, now); }
    InsertKeepsUniqueIff(freed, job, now);
  }

  lemma UpsertIdFree(s: QueueState, job: Job, owner: Option<JobId>, now: Time)
    requires Core(s) && UniqueOwners(s, now) && (owner.Some? ==> owner.value in s.jobs) && DeduplicationId(job).Some?
    requires UpsertConflict(s, job, owner, now).None?
    ensures IdFree(if owner.Some? then Remove(s, owner.value) else s, DeduplicationId(job).value, now)
  {
    var d := DeduplicationId(job).value;
    var freed := if owner.Some? then Remove(s, owner.value) else s;
    if owner.Some? {
      RemoveIsCalm(s, owner.value);
      CalmOwnsNothingNew(s, freed, now);
    }
    forall x ensures !IsDeduplicationOwner(freed, x, d, now) {
      if IsDeduplicationOwner(s, x, d, now) { OwnerLookupIsDetermined(s, d, now, x); }
    }
  }

  lemma RemoveAllAndReleaseOwnsNothingNew(s: QueueState, ids: seq<JobId>, now: Time)
    requires Core(s)
    ensures NoNewOwners(s, RemoveAllAndRelease(s, ids, now), now)
  {
    var removed := RemoveAll(s, Elements(ids));
    RemoveAllIsCalm(s, Elements(ids));
    ReleaseParentsIsCalm(removed, ParentsOf(s, ids), now);
    CalmTransitive(s, removed, RemoveAllAndRelease(s, ids, now));
    CalmOwnsNothingNew(s, RemoveAllAndRelease(s, ids, now), now);
  }

  lemma CleanOwnsNothingNew(s: QueueState, state: JobState, grace: Duration, limit: nat, now: Time)
    requires Core(s)
    ensures NoNewOwners(s, Clean(s, state, grace, limit, now).state, now)
  {
    var ranks := CleanRanks(s, state, Earlier(now, grace));
    RemoveAllAndReleaseOwnsNothingNew(s, Take(Sorted(ranks, ranks.Keys), limit), now);
  }

  lemma DrainOwnsNothingNew(s: QueueState, includeDelayed: bool, now: Time)
    requires Core(s)
    ensures NoNewOwners(s, Drain(s, includeDelayed, now).state, now)
  {
    var ranks := DrainRanks(s, includeDelayed);
    RemoveAllAndReleaseOwnsNothingNew(s, Sorted(ranks, ranks.Keys), now);
  }

  lemma RemoveUnprocessedOwnsNothingNew(s: QueueState, p: JobId, now: Time)
    requires Core(s)
    ensures NoNewOwners(s, RemoveUnprocessedChildren(s, p, now).state, now)
  {
    if p in s.jobs {
      var ids := Elements(Descendants.Walk(s.jobs, s.jobs[p].childIds, {}).out);
      RemoveAllIsCalm(s, ids);
      ReleaseParentIsCalm(RemoveAll(s, ids), p, now);
      CalmTransitive(s, RemoveAll(s, ids), ReleaseParent(RemoveAll(s, ids), p, now));
      CalmOwnsNothingNew(s, ReleaseParent(RemoveAll(s, ids), p, now), now);
    }
  }

  lemma CalmReleaseOwnsNothingNew(s: QueueState, t: QueueState, p: JobId, now: Time)
    requires Core(t) && NoNewOwners(s, t, now)
    ensures NoNewOwners(s, ReleaseParent(t, p, now), now)
  {
    ReleaseParentIsCalm(t, p, now);
    CalmOwnsNothingNew(t, ReleaseParent(t, p, now), now);
    NoNewTransitive(s, t, ReleaseParent(t, p, now), now);
  }

  lemma DetachedOwnsNothingNew(s: QueueState, p: JobId, c: JobId, now: Time)
    requires Core(s) && p in s.jobs && c in s.jobs
    ensures NoNewOwners(s, Detached(s, p, c), now)
  {
    DetachedFrame(s, p, c);
  }

  lemma DetachOwnsNothingNew(s: QueueState, c: JobId, now: Time)
    requires Core(s)
    ensures NoNewOwners(s, RemoveChildDependency(s, c, now).state, now)
  {
    if RemoveChildDependency(s, c, now).reply == Ok(true) {
      var p := s.jobs[c].parentId.value;
      var t := Detached(s, p, c);
      DetachedKeeps(s, p, c);
      DetachedOwnsNothingNew(s, p, c, now);
      CalmReleaseOwnsNothingNew(s, t, p, now);
    }
  }

  // -- Every operation --------------------------------------------------------------------------------------

  lemma RewriteOwnsNothingNew(s: QueueState, op: Op)
    requires op.TouchesOne()
    ensures NoNewOwners(s, Rewrite(s, op).state, op.now)
  {
    TouchedJobsAreRewritten(s, op);
    RewrittenOwnsNothingNew(s, Rewrite(s, op).state, op.now);
  }

  lemma RewrittenOwnsNothingNew(s: QueueState, t: QueueState, now: Time)
    requires RewrittenAll(s, t)
    ensures NoNewOwners(s, t, now)
  {
    forall id | id in t.jobs ensures OwnsNoMore(s.jobs[id], t.jobs[id]) { assert Rewritten(s.jobs[id], t.jobs[id]); }
  }

  lemma AddManyKeepsUnique(s: QueueState, specs: seq<JobSpec>, uuids: seq<JobId>, now: Time)
    requires Core(s) && UniqueOwners(s, now) && |specs| == |uuids| && "" !in uuids
    ensures UniqueOwners(AddMany(s, specs, uuids, now).state, now)
  {
    if forall k | 0 <= k < |specs| :: specs[k].options.ValidAt(now) {
      var jobs := NewJobs(s.queue, specs, uuids, now);
      forall k | 0 <= k < |jobs| ensures IsNew(jobs[k]) { NewJobIsNew(s.queue, specs[k], uuids[k], now); }
      AddJobsKeepsUnique(s, jobs, now);
    }
  }

  lemma SubmitKeepsUnique(s: QueueState, op: Op)
    requires Core(s) && op.WellFormed() && UniqueOwners(s, op.now)
    requires op.Submits()
    ensures UniqueOwners(Submission(s, op).state, op.now)
  {
    if op.OpAdd? {
      AddJobKeepsUnique(s, NewJob(s.queue, op.spec, op.uuid, op.now), op.now);
    } else if op.OpAddMany? {
      AddManyKeepsUnique(s, op.specs, op.uuids, op.now);
    } else if op.OpAddFlow? {
      AddFlowKeepsUnique(s, op.parent, op.uuid, op.specs, op.uuids, op.now);
    } else if op.OpAddFlowChildren? {
      AddFlowChildrenKeepsUnique(s, op.id, op.token, op.specs, op.uuids, op.now);
    } else {
      UpsertKeepsUnique(s, op.spec, op.uuid, op.now);
    }
  }

  lemma CleanUpOwnsNothingNew(s: QueueState, op: Op)
    requires Core(s) && op.CleansUp()
    ensures NoNewOwners(s, Removal(s, op).state, op.now)
  {
    match op
    case OpRemoveUnprocessedChildren(id, now) => RemoveUnprocessedOwnsNothingNew(s, id, now);
    case OpRemoveChildDependency(id, now) => DetachOwnsNothingNew(s, id, now);
    case OpRemove(id, now) => RemoveJobOwnsNothingNew(s, id, now);
    case OpRemoveRepeat(key, now) =>
      var owner := Find(s, RepeatOwners(s, key));
      if owner.Some? { RemoveJobOwnsNothingNew(s, owner.value, now); }
    case OpClean(state, grace, limit, now) => CleanOwnsNothingNew(s, state, grace, limit, now);
    case OpDrain(includeDelayed, now) => DrainOwnsNothingNew(s, includeDelayed, now);
  }
}
