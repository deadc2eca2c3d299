/**
  A flow's children that meet the owner of their deduplication id do not join;
  what is left of them is the expiry they asked the owner to take over.
 */
module FlowExpirations {
  import opened Ordering
  import opened JobTypes
  import opened QueueModel
  import opened CoreInvariant
  import opened CoreSubmit
  import opened Operations
  import opened FanIn
  import opened FanInSubmit
  import opened CompletionOutcomes
  import opened ManagementOutcomes
  import opened SubmissionOutcomes
  import opened FlowRefusals

  // -- The scan -----------------------------------------------------------------------------------

  /** A new job of id `id` asks the owner of `d` to live on. */
  predicate AsksToExtend(s: QueueState, id: JobId, deduplication: Option<DeduplicationOptions>, d: string)
  {
    match deduplication
    case Some(o) => id !in s.jobs && o.id == d && o.extend && o.ttl.Some?
    case None => false
  }

  /** The owner's expiry after such a job, and as it was after any other. */
  function ExpiryPast(s: QueueState, id: JobId, deduplication: Option<DeduplicationOptions>, before: Option<Time>, d: string, now: Time): Option<Time>
  {
    if AsksToExtend(s, id, deduplication, d) then Some(now + deduplication.value.ttl.value) else before
  }

  /** The expiry of the owner of `d` after `jobs` came by: what the last of them asked for, if any did. */
  function ExpiryAfter(s: QueueState, jobs: seq<(JobId, Option<DeduplicationOptions>)>, before: Option<Time>, d: string, now: Time): Option<Time>
  {
    if jobs == [] then before else
      var (id, deduplication) := jobs[|jobs| - 1];
      ExpiryPast(s, id, deduplication, ExpiryAfter(s, jobs[..|jobs| - 1], before, d, now), d, now)
  }

  function Wishes(jobs: seq<Job>): (r: seq<(JobId, Option<DeduplicationOptions>)>)
    ensures |r| == |jobs| && forall k | 0 <= k < |jobs| :: r[k] == (jobs[k].id, jobs[k].options.deduplication)
  {
    seq(|jobs|, k requires 0 <= k < |jobs| => (jobs[k].id, jobs[k].options.deduplication))
  }

  /** `x` alone owns `d`. */
  ghost predicate OwnsAlone(s: QueueState, x: JobId, d: string, now: Time)
  {
    Occupies(s, x, d, now) && forall y | Occupies(s, y, d, now) :: y == x
  }

  lemma {:induction false} ScanExtends(s: QueueState, children: seq<Job>, taken: set<string>, x: JobId, d: string, now: Time)
    requires AreFresh(children, now) && OwnsAlone(s, x, d, now)
    ensures var scan := ScanDeduplication(s, children, taken, now);
            !scan.conflict ==>
              && x in scan.state.jobs
              && scan.state.jobs[x].deduplicationExpiresAt == ExpiryAfter(s, Wishes(children), s.jobs[x].deduplicationExpiresAt, d, now)
    decreases |children|
  {
    if children != [] {
      var n := |children| - 1;
      BooksSay(s, children[..n], taken, now);
      ScanExtends(s, children[..n], taken, x, d, now);
      ExpiryAfterNext(s, children, s.jobs[x].deduplicationExpiresAt, d, now);
      ScanNextExtends(s, ScanDeduplication(s, children[..n], taken, now), children[n], x, d, now);
    }
  }

  lemma ExpiryAfterNext(s: QueueState, children: seq<Job>, before: Option<Time>, d: string, now: Time)
    requires children != []
    ensures var last, earlier := children[|children| - 1], Wishes(children[..|children| - 1]);
            ExpiryAfter(s, Wishes(children), before, d, now)
              == ExpiryPast(s, last.id, last.options.deduplication, ExpiryAfter(s, earlier, before, d, now), d, now)
  {
    assert Wishes(children)[..|children| - 1] == Wishes(children[..|children| - 1]);
  }

  lemma ScanNextExtends(s: QueueState, before: Scan, child: Job, x: JobId, d: string, now: Time)
    requires SameOwners(s, before.state, now) && OwnsAlone(s, x, d, now) && IsFresh(child, now)
    ensures var scan := ScanChild(before, child, now);
            && x in before.state.jobs && x in scan.state.jobs
            && (!scan.conflict ==>
                  && !before.conflict
                  && scan.state.jobs[x].deduplicationExpiresAt
                       == ExpiryPast(s, child.id, child.options.deduplication, before.state.jobs[x].deduplicationExpiresAt, d, now))
  {
    assert Occupies(before.state, x, d, now);
    if DeduplicationId(child).Some? { FoundIffOccupied(before.state, DeduplicationId(child).value, now); }
  }

  // -- The rest of the submission -------------------------------------------------------------------

  predicate SameExpiry(s: QueueState, t: QueueState, x: JobId)
  {
    x in t.jobs && x in s.jobs ==> t.jobs[x].deduplicationExpiresAt == s.jobs[x].deduplicationExpiresAt
  }

  lemma ReleaseKeepsExpiry(s: QueueState, p: JobId, now: Time, x: JobId)
    ensures SameExpiry(s, ReleaseParent(s, p, now), x)
  {
    if p in s.jobs && s.jobs[p].state == WaitingChildren {
      match ScanChildren(s, s.jobs[p].childIds)
      case Blocked =>
      case Ready(Some(_), _) =>
      case Ready(None, Some(c)) =>
        var failed := FailedParent(s.jobs[p], ChildFailureReason(c, if c in s.jobs then s.jobs[c].failedReason else None), now);
        RetainedSame(Put(s, p, failed), p, failed, now);
      case Ready(None, None) =>
    }
  }

  /** Attaching children and releasing their parent changes no expiry. */
  lemma JoiningKeepsExpiry(u: QueueState, linked: QueueState, p: JobId, joining: seq<Job>, now: Time, x: JobId)
    requires AreChildren(p, joining) && x in u.jobs && x in linked.jobs
    requires linked.jobs[x].deduplicationExpiresAt == u.jobs[x].deduplicationExpiresAt
    ensures SameExpiry(u, ReleaseParent(AttachChildren(linked, p, joining), p, now), x)
  {
    AttachFrame(linked, p, joining);
    AttachedKeepsExpiry(linked, AttachChildren(linked, p, joining), p, joining, x);
    ReleaseKeepsExpiry(AttachChildren(linked, p, joining), p, now, x);
    ReleaseAddsNobody(AttachChildren(linked, p, joining), p, now);
  }

  lemma AttachedKeepsExpiry(linked: QueueState, t: QueueState, p: JobId, joining: seq<Job>, x: JobId)
    requires AttachedAll(linked, t, p, joining) && x in linked.jobs
    ensures x in t.jobs && t.jobs[x].deduplicationExpiresAt == linked.jobs[x].deduplicationExpiresAt
  {
    if x in Ids(joining) {
      var k :| 0 <= k < |joining| && joining[k].id == x;
      assert IsAttached(linked, t, p, joining[k]);
    }
  }

  // -- The flow ----------------------------------------------------------------------------------------

  function WishesOf(specs: seq<JobSpec>, uuids: seq<JobId>): (r: seq<(JobId, Option<DeduplicationOptions>)>)
    requires |specs| == |uuids|
    ensures |r| == |specs| && forall k | 0 <= k < |specs| :: r[k] == (SubmittedId(specs[k], uuids[k]), specs[k].options.deduplication)
  {
    seq(|specs|, k requires 0 <= k < |specs| => (SubmittedId(specs[k], uuids[k]), specs[k].options.deduplication))
  }

  /** The expiry `x` has in `t`, if it is still stored. */
  predicate HasExpiry(t: QueueState, x: JobId, expiry: Option<Time>)
  {
    x in t.jobs ==> t.jobs[x].deduplicationExpiresAt == expiry
  }

  lemma ExistingExtends(s: QueueState, p: JobId, children: seq<Job>, now: Time, x: JobId, d: string)
    requires p in s.jobs && AreFresh(children, now) && AreChildren(p, children) && OwnsAlone(s, x, d, now)
    ensures var o := AddFlowToExisting(s, p, children, now);
            o.reply.Ok? ==> HasExpiry(o.state, x, ExpiryAfter(s, Wishes(children), s.jobs[x].deduplicationExpiresAt, d, now))
  {
    var scan := ScanDeduplication(s, children, {}, now);
    ScanExtends(s, children, {}, x, d, now);
    if AddFlowToExisting(s, p, children, now).reply.Ok? {
      var joining := Unskipped(children, scan.skipped);
      UnskippedAreChildren(p, children, scan.skipped);
      var parent := scan.state.jobs[p].(childIds := AppendNew(s.jobs[p].childIds, Ids(joining)));
      JoiningKeepsExpiry(scan.state, Put(scan.state, p, parent), p, joining, now, x);
    }
  }

  lemma ParkingExtends(s: QueueState, p: JobId, children: seq<Job>, now: Time, x: JobId, d: string)
    requires p in s.jobs && AreFresh(children, now) && AreChildren(p, children) && OwnsAlone(s, x, d, now)
    ensures var o := ParkBehind(s, p, children, now);
            o.reply.Ok? ==> HasExpiry(o.state, x, ExpiryAfter(s, Wishes(children), s.jobs[x].deduplicationExpiresAt, d, now))
  {
    var scan := ScanDeduplication(s, children, {}, now);
    ScanExtends(s, children, {}, x, d, now);
    if ParkBehind(s, p, children, now).reply.Ok? {
      var joining := Unskipped(children, scan.skipped);
      UnskippedAreChildren(p, children, scan.skipped);
      var parent := Parked(scan.state.jobs[p]).(childIds := AppendNew(s.jobs[p].childIds, Ids(joining)));
      JoiningKeepsExpiry(scan.state, Put(scan.state, p, parent), p, joining, now, x);
    }
  }

  lemma NewFlowExtends(s: QueueState, parent: Job, children: seq<Job>, now: Time, x: JobId, d: string)
    requires parent.id !in s.jobs && AreFresh(children, now) && AreChildren(parent.id, children) && OwnsAlone(s, x, d, now)
    requires FindDeduplicationOwner(s, parent, now).None?
    ensures var o := AddNewFlow(s, parent, children, now);
            o.reply.Ok? ==> HasExpiry(o.state, x, ExpiryAfter(s, Wishes(children), s.jobs[x].deduplicationExpiresAt, d, now))
  {
    var taken := if ActiveDeduplicationId(parent, now).Some? then {ActiveDeduplicationId(parent, now).value} else {};
    var scan := ScanDeduplication(s, children, taken, now);
    ScanExtends(s, children, taken, x, d, now);
    if AddNewFlow(s, parent, children, now).reply.Ok? {
      var joining := Unskipped(children, scan.skipped);
      UnskippedAreChildren(parent.id, children, scan.skipped);
      InsertStores(scan.state, RootJob(parent, joining, now));
      JoiningKeepsExpiry(scan.state, Insert(scan.state, RootJob(parent, joining, now)), parent.id, joining, now, x);
    }
  }

  /** A flow that is accepted leaves every owner with the expiry last asked for by a child that met it, and with its own if none did. */
  lemma FlowExtendsOwners(s: QueueState, spec: JobSpec, uuid: JobId, specs: seq<JobSpec>, uuids: seq<JobId>, now: Time, x: JobId, d: string)
    requires |specs| == |uuids| && "" !in uuids && OwnsAlone(s, x, d, now)
    requires AddFlow(s, spec, uuid, specs, uuids, now).reply.Ok?
    requires SubmittedId(spec, uuid) in s.jobs || (spec.options.deduplication.Some? ==> IsFree(s, spec.options.deduplication.value.id, now))
    ensures HasExpiry(AddFlow(s, spec, uuid, specs, uuids, now).state, x,
                      ExpiryAfter(s, WishesOf(specs, uuids), s.jobs[x].deduplicationExpiresAt, d, now))
  {
    var parent := NewJob(s.queue, spec, uuid, now);
    var children := ChildJobs(s.queue, parent.id, specs, uuids, now);
    NewJobIsSubmitted(s.queue, spec, uuid, now);
    AcceptedChildren(s, spec, uuid, specs, uuids, now);
    if parent.id in s.jobs {
      ExistingExtends(s, parent.id, children, now, x, d);
    } else {
      if spec.options.deduplication.Some? { FoundIffOccupied(s, spec.options.deduplication.value.id, now); }
      NewFlowExtends(s, parent, children, now, x, d);
    }
  }

  lemma AcceptedChildren(s: QueueState, spec: JobSpec, uuid: JobId, specs: seq<JobSpec>, uuids: seq<JobId>, now: Time)
    requires |specs| == |uuids| && "" !in uuids && AddFlow(s, spec, uuid, specs, uuids, now).reply.Ok?
    ensures var p := SubmittedId(spec, uuid); var children := ChildJobs(s.queue, p, specs, uuids, now);
            AreFresh(children, now) && AreChildren(p, children) && Wishes(children) == WishesOf(specs, uuids)
    ensures AddFlow(s, spec, uuid, specs, uuids, now)
         == if SubmittedId(spec, uuid) in s.jobs
            then AddFlowToExisting(s, SubmittedId(spec, uuid), ChildJobs(s.queue, SubmittedId(spec, uuid), specs, uuids, now), now)
            else AddNewFlow(s, NewJob(s.queue, spec, uuid, now), ChildJobs(s.queue, SubmittedId(spec, uuid), specs, uuids, now), now)
  {
    var p := SubmittedId(spec, uuid);
    NewJobIsSubmitted(s.queue, spec, uuid, now);
    assert forall k | 0 <= k < |specs| :: specs[k].options.ValidAt(now);
    SubmittedAreChildren(s.queue, p, specs, uuids, now);
  }

  lemma SubmittedAreChildren(queue: string, p: JobId, specs: seq<JobSpec>, uuids: seq<JobId>, now: Time)
    requires |specs| == |uuids| && "" !in uuids && forall k | 0 <= k < |specs| :: specs[k].options.ValidAt(now)
    requires NoDuplicates([p] + Ids(ChildJobs(queue, p, specs, uuids, now)))
    ensures var children := ChildJobs(queue, p, specs, uuids, now);
            AreFresh(children, now) && AreChildren(p, children) && Wishes(children) == WishesOf(specs, uuids)
  {
    ChildJobsAreChildren(queue, p, specs, uuids, now);
    forall k | 0 <= k < |specs|
      ensures IsFresh(ChildJobs(queue, p, specs, uuids, now)[k], now)
      ensures Wishes(ChildJobs(queue, p, specs, uuids, now))[k] == WishesOf(specs, uuids)[k]
    {
      SubmittedIsSeen(queue, p, specs[k], uuids[k], now);
      NewJobIsSubmitted(queue, specs[k], uuids[k], now);
    }
  }

  /** The same for a running parent that parks behind more children. */
  lemma ParkingExtendsOwners(s: QueueState, p: JobId, token: Token, specs: seq<JobSpec>, uuids: seq<JobId>, now: Time, x: JobId, d: string)
    requires |specs| == |uuids| && "" !in uuids && OwnsAlone(s, x, d, now) && AddFlowChildren(s, p, token, specs, uuids, now).reply.Ok?
    ensures HasExpiry(AddFlowChildren(s, p, token, specs, uuids, now).state, x,
                      ExpiryAfter(s, WishesOf(specs, uuids), s.jobs[x].deduplicationExpiresAt, d, now))
  {
    assert forall k | 0 <= k < |specs| :: specs[k].options.ValidAt(now);
    SubmittedAreChildren(s.queue, p, specs, uuids, now);
    ParkingExtends(s, p, ChildJobs(s.queue, p, specs, uuids, now), now, x, d);
  }
}
