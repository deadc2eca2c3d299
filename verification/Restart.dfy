/**
  Restart equivalence: a queue restored from a snapshot answers any later run of
  operations as the original would have, reply by reply, although its hash map
  may yield its entries in another order.
 */
module Restart {
  import opened Ordering
  import opened JobTypes
  import opened QueueModel
  import opened CoreInvariant
  import opened CoreSubmit
  import opened CoreLifecycle
  import opened Operations
  import opened Steps
  import opened RestartModel
  import Descendants
  import Owners = DeduplicationOwnership
  import Repeats = RepeatSeries
  import Runs = DeduplicationRuns

  // -- Outcomes -----------------------------------------------------------------------------------

  /** Related states, and replies that differ in waiting sequences only. */
  ghost predicate Alike(k: Lag, a: Outcome, b: Outcome)
  {
    && Sim(k, a.state, b.state)
    && b.success == a.success && b.error == a.error && b.count == a.count
    && SimJobs(k, a.jobs, b.jobs)
  }

  /** Every owner lookup at time `now` has one possible answer. */
  ghost predicate Determined(s: QueueState, now: Time)
  {
    Core(s) && Owners.UniqueOwners(s, now) && Repeats.UniqueRepeats(s)
  }

  /** A reply that is one job. */
  lemma OneAlike(k: Lag, u: QueueState, v: QueueState, a: Job, b: Job)
    requires Sim(k, u, v) && SimJob(k, a, b)
    ensures Alike(k, JobOutcome(Out(u, Ok(a))), JobOutcome(Out(v, Ok(b))))
  {
  }

  /** A reply that is one stored job. */
  lemma StoredAlike(k: Lag, u: QueueState, v: QueueState, id: JobId)
    requires Sim(k, u, v) && id in u.jobs
    ensures Alike(k, JobOutcome(Out(u, Ok(u.jobs[id]))), JobOutcome(Out(v, Ok(v.jobs[id]))))
  {
    assert SimJob(k, u.jobs[id], v.jobs[id]);
  }

  lemma ErrorsAlike(k: Lag, s: QueueState, t: QueueState, e: LaneError)
    requires Sim(k, s, t)
    ensures Alike(k, JobOutcome(Out(s, Err(e))), JobOutcome(Out(t, Err(e))))
    ensures Alike(k, JobsOutcome(Out(s, Err(e))), JobsOutcome(Out(t, Err(e))))
    ensures Alike(k, FlowOutcome(Out(s, Err(e))), FlowOutcome(Out(t, Err(e))))
    ensures Alike(k, RemovedOutcome(Out(s, Err(e))), RemovedOutcome(Out(t, Err(e))))
  {
  }

  // -- Submitting --------------------------------------------------------------------------------

  lemma AddUnlessRepeatingSim(k: Lag, s: QueueState, t: QueueState, job: Job)
    requires Sim(k, s, t) && job.enqueuedSeq == 0 && Repeats.UniqueRepeats(s)
    ensures Alike(k, JobOutcome(AddUnlessRepeating(s, job)), JobOutcome(AddUnlessRepeating(t, job)))
  {
    if ActiveRepeatKey(job).Some? {
      RepeatLookupSame(k, s, t, ActiveRepeatKey(job).value);
      var owner := FindRepeatOwner(s, job);
      if owner.Some? { assert SimJob(k, s.jobs[owner.value], t.jobs[owner.value]); }
    }
    InsertSim(k, s, t, job, job);
    assert SimJob(k, Insert(s, job).jobs[job.id], Insert(t, job).jobs[job.id]);
  }

  lemma FoundSame(k: Lag, s: QueueState, t: QueueState, job: Job, now: Time)
    requires Sim(k, s, t) && Owners.UniqueOwners(s, now)
    ensures FindDeduplicationOwner(t, job, now) == FindDeduplicationOwner(s, job, now)
  {
    if ActiveDeduplicationId(job, now).Some? { OwnerLookupSame(k, s, t, ActiveDeduplicationId(job, now).value, now); }
  }

  lemma AddJobSim(k: Lag, s: QueueState, t: QueueState, job: Job, now: Time)
    requires Sim(k, s, t) && job.enqueuedSeq == 0 && Determined(s, now)
    ensures Alike(k, JobOutcome(AddJob(s, job, now)), JobOutcome(AddJob(t, job, now)))
  {
    FoundSame(k, s, t, job, now);
    var owner := FindDeduplicationOwner(s, job, now);
    if job.id in s.jobs {
      assert SimJob(k, s.jobs[job.id], t.jobs[job.id]);
    } else if owner.None? {
      AddUnlessRepeatingSim(k, s, t, job);
    } else {
      DuplicateSim(k, s, t, job, owner.value, now);
    }
  }

  lemma ReplacedSim(k: Lag, s: QueueState, t: QueueState, job: Job, id: JobId, now: Time)
    requires Sim(k, s, t) && job.enqueuedSeq == 0 && Determined(s, now) && job.id !in s.jobs && id in s.jobs
    requires FindDeduplicationOwner(s, job, now) == Some(id) && FindDeduplicationOwner(t, job, now) == Some(id)
    requires ReplacesDelayedOwner(job, s.jobs[id])
    ensures Alike(k, JobOutcome(AddJob(s, job, now)), JobOutcome(AddJob(t, job, now)))
  {
    assert SimJob(k, s.jobs[id], t.jobs[id]);
    RemoveSim(k, s, t, id);
    RemoveIsCalm(s, id);
    Repeats.CalmOwnsNothingNew(s, Remove(s, id));
    AddUnlessRepeatingSim(k, Remove(s, id), Remove(t, id), PreserveExpiration(job, s.jobs[id]));
  }

  lemma ExtendedSim(k: Lag, s: QueueState, t: QueueState, job: Job, id: JobId, now: Time)
    requires Sim(k, s, t) && job.id !in s.jobs && id in s.jobs && !ReplacesDelayedOwner(job, s.jobs[id])
    requires FindDeduplicationOwner(s, job, now) == Some(id) && FindDeduplicationOwner(t, job, now) == Some(id)
    ensures Alike(k, JobOutcome(AddJob(s, job, now)), JobOutcome(AddJob(t, job, now)))
  {
    assert SimJob(k, s.jobs[id], t.jobs[id]);
    ExtendSim(k, s, t, job, id, now);
    assert SimJob(k, ExtendExpiration(s, job, id, now).jobs[id], ExtendExpiration(t, job, id, now).jobs[id]);
  }

  /** A job whose id is owned replaces the owner or gives way to it. */
  lemma DuplicateSim(k: Lag, s: QueueState, t: QueueState, job: Job, id: JobId, now: Time)
    requires Sim(k, s, t) && job.enqueuedSeq == 0 && Determined(s, now) && job.id !in s.jobs
    requires FindDeduplicationOwner(s, job, now) == Some(id) && FindDeduplicationOwner(t, job, now) == Some(id)
    ensures Alike(k, JobOutcome(AddJob(s, job, now)), JobOutcome(AddJob(t, job, now)))
  {
    if ReplacesDelayedOwner(job, s.jobs[id]) { ReplacedSim(k, s, t, job, id, now); } else { ExtendedSim(k, s, t, job, id, now); }
  }

  lemma AddJobKeepsDetermined(s: QueueState, job: Job, now: Time)
    requires Determined(s, now) && IsNew(job)
    ensures Determined(AddJob(s, job, now).state, now)
  {
    AddJobKeeps(s, job, now);
    Owners.AddJobKeepsUnique(s, job, now);
    Repeats.AddJobKeepsUnique(s, job, now);
  }

  lemma {:induction false} AddJobsSim(k: Lag, s: QueueState, t: QueueState, jobs: seq<Job>, now: Time)
    requires Sim(k, s, t) && Determined(s, now) && forall i | 0 <= i < |jobs| :: IsNew(jobs[i])
    ensures Sim(k, AddJobs(s, jobs, now).state, AddJobs(t, jobs, now).state)
    ensures SimJobs(k, AddJobs(s, jobs, now).reply, AddJobs(t, jobs, now).reply)
    ensures Determined(AddJobs(s, jobs, now).state, now)
    decreases |jobs|
  {
    if jobs != [] {
      var n := |jobs| - 1;
      AddJobsSim(k, s, t, jobs[..n], now);
      var u, v := AddJobs(s, jobs[..n], now).state, AddJobs(t, jobs[..n], now).state;
      AddJobSim(k, u, v, jobs[n], now);
      AddJobKeepsDetermined(u, jobs[n], now);
    }
  }

  lemma AddSim(k: Lag, s: QueueState, t: QueueState, spec: JobSpec, uuid: JobId, now: Time)
    requires Sim(k, s, t) && Determined(s, now)
    ensures Alike(k, JobOutcome(Add(s, spec, uuid, now)), JobOutcome(Add(t, spec, uuid, now)))
  {
    if spec.options.ValidAt(now) { AddJobSim(k, s, t, NewJob(s.queue, spec, uuid, now), now); }
  }

  lemma AddManySim(k: Lag, s: QueueState, t: QueueState, specs: seq<JobSpec>, uuids: seq<JobId>, now: Time)
    requires Sim(k, s, t) && Determined(s, now) && |specs| == |uuids| && "" !in uuids
    ensures Alike(k, JobsOutcome(AddMany(s, specs, uuids, now)), JobsOutcome(AddMany(t, specs, uuids, now)))
  {
    if forall i | 0 <= i < |specs| :: specs[i].options.ValidAt(now) {
      var jobs := NewJobs(s.queue, specs, uuids, now);
      forall i | 0 <= i < |jobs| ensures IsNew(jobs[i]) { NewJobIsNew(s.queue, specs[i], uuids[i], now); }
      AddJobsSim(k, s, t, jobs, now);
    }
  }

  // -- Flows ------------------------------------------------------------------------------------------

  lemma {:induction false} ConflictSame(k: Lag, s: QueueState, t: QueueState, p: JobId, listed: seq<JobId>, children: seq<Job>)
    requires Sim(k, s, t)
    ensures FirstConflict(t, p, listed, children) == FirstConflict(s, p, listed, children)
    decreases |children|
  {
    if children != [] {
      var n := |children| - 1;
      ConflictSame(k, s, t, p, listed, children[..n]);
      if children[n].id in s.jobs { assert SimJob(k, s.jobs[children[n].id], t.jobs[children[n].id]); }
    }
  }

  ghost predicate SimScan(k: Lag, a: Scan, b: Scan)
  {
    Sim(k, a.state, b.state) && b.skipped == a.skipped && b.taken == a.taken && b.conflict == a.conflict
  }

  lemma ScanChildSim(k: Lag, a: Scan, b: Scan, child: Job, now: Time)
    requires SimScan(k, a, b) && Owners.UniqueOwners(a.state, now)
    ensures SimScan(k, ScanChild(a, child, now), ScanChild(b, child, now))
  {
    var d := ActiveDeduplicationId(child, now);
    if d.Some? {
      OwnerLookupSame(k, a.state, b.state, d.value, now);
      var owner := Find(a.state, DeduplicationOwners(a.state, d.value, now));
      if owner.Some? { ExtendSim(k, a.state, b.state, child, owner.value, now); }
    }
  }

  lemma {:induction false} ScanSim(k: Lag, s: QueueState, t: QueueState, children: seq<Job>, taken: set<string>, now: Time)
    requires Sim(k, s, t) && Owners.UniqueOwners(s, now)
    ensures SimScan(k, ScanDeduplication(s, children, taken, now), ScanDeduplication(t, children, taken, now))
    decreases |children|
  {
    if children != [] {
      var n := |children| - 1;
      ScanSim(k, s, t, children[..n], taken, now);
      Owners.ScanOwnsNothingNew(s, children[..n], taken, now);
      Owners.NoNewKeepsUnique(s, ScanDeduplication(s, children[..n], taken, now).state, now);
      ScanChildSim(k, ScanDeduplication(s, children[..n], taken, now), ScanDeduplication(t, children[..n], taken, now), children[n], now);
    }
  }

  lemma {:induction false} UnstoredSame(k: Lag, s: QueueState, t: QueueState, children: seq<Job>)
    requires Sim(k, s, t)
    ensures Unstored(t, children) == Unstored(s, children)
    decreases |children|
  {
    if children != [] { UnstoredSame(k, s, t, children[..|children| - 1]); }
  }

  lemma KeysFreeSame(k: Lag, s: QueueState, t: QueueState, jobs: seq<Job>)
    requires Sim(k, s, t)
    ensures RepeatKeysFree(t, jobs) <==> RepeatKeysFree(s, jobs)
  {
    forall i | 0 <= i < |jobs| && ActiveRepeatKey(jobs[i]).Some?
      ensures RepeatOwners(t, ActiveRepeatKey(jobs[i]).value) == RepeatOwners(s, ActiveRepeatKey(jobs[i]).value)
    {
      RepeatOwnersSame(k, s, t, ActiveRepeatKey(jobs[i]).value);
    }
  }

  lemma AttachSim(k: Lag, s: QueueState, t: QueueState, p: JobId, child: Job)
    requires Sim(k, s, t) && child.enqueuedSeq == 0
    ensures Sim(k, AttachChild(s, p, child), AttachChild(t, p, child))
  {
    if child.id in s.jobs {
      assert SimJob(k, s.jobs[child.id], t.jobs[child.id]);
      var a, b := s.jobs[child.id].(parentId := Some(p)), t.jobs[child.id].(parentId := Some(p));
      PutSim(k, s, t, child.id, a, b);
      RecordSim(k, Put(s, child.id, a), Put(t, child.id, b), p, a, b);
    } else {
      InsertSim(k, s, t, child, child);
    }
  }

  lemma {:induction false} AttachAllSim(k: Lag, s: QueueState, t: QueueState, p: JobId, children: seq<Job>)
    requires Sim(k, s, t) && forall i | 0 <= i < |children| :: children[i].enqueuedSeq == 0
    ensures Sim(k, AttachChildren(s, p, children), AttachChildren(t, p, children))
    decreases |children|
  {
    if children != [] {
      var n := |children| - 1;
      AttachAllSim(k, s, t, p, children[..n]);
      AttachSim(k, AttachChildren(s, p, children[..n]), AttachChildren(t, p, children[..n]), p, children[n]);
    }
  }

  lemma JoinSim(k: Lag, s: QueueState, t: QueueState, p: JobId, a: Job, b: Job, joining: seq<Job>, now: Time)
    requires Sim(k, s, t) && SimJob(k, a, b) && forall i | 0 <= i < |joining| :: joining[i].enqueuedSeq == 0
    ensures Sim(k, JoinFlow(s, p, a, joining, now), JoinFlow(t, p, b, joining, now))
    ensures SimJobs(k, StoredJobs(AttachChildren(Put(s, p, a), p, joining), Ids(joining)),
                       StoredJobs(AttachChildren(Put(t, p, b), p, joining), Ids(joining)))
  {
    PutSim(k, s, t, p, a, b);
    AttachAllSim(k, Put(s, p, a), Put(t, p, b), p, joining);
    StoredSim(k, AttachChildren(Put(s, p, a), p, joining), AttachChildren(Put(t, p, b), p, joining), Ids(joining));
    ReleaseSim(k, AttachChildren(Put(s, p, a), p, joining), AttachChildren(Put(t, p, b), p, joining), p, now);
  }

  /** A flow's reply names its parent as stored now, or as it was, and its children. */
  lemma FlowAlike(k: Lag, u: QueueState, v: QueueState, p: JobId, a: Job, b: Job, xs: seq<Job>, ys: seq<Job>)
    requires Sim(k, u, v) && SimJob(k, a, b) && SimJobs(k, xs, ys)
    ensures Alike(k, FlowOutcome(Out(u, Ok(JobFlow(if p in u.jobs then u.jobs[p] else a, xs)))),
                     FlowOutcome(Out(v, Ok(JobFlow(if p in v.jobs then v.jobs[p] else b, ys)))))
  {
    if p in u.jobs { assert SimJob(k, u.jobs[p], v.jobs[p]); }
  }

  lemma {:induction false} UnskippedUnsequenced(children: seq<Job>, skipped: set<JobId>)
    requires forall i | 0 <= i < |children| :: children[i].enqueuedSeq == 0
    ensures forall i | 0 <= i < |Unskipped(children, skipped)| :: Unskipped(children, skipped)[i].enqueuedSeq == 0
    decreases |children|
  {
    if children != [] { UnskippedUnsequenced(children[..|children| - 1], skipped); }
  }

  lemma AddFlowToExistingSim(k: Lag, s: QueueState, t: QueueState, p: JobId, children: seq<Job>, now: Time)
    requires Sim(k, s, t) && p in s.jobs && forall i | 0 <= i < |children| :: children[i].enqueuedSeq == 0
    requires Owners.UniqueOwners(s, now)
    ensures Alike(k, FlowOutcome(AddFlowToExisting(s, p, children, now)), FlowOutcome(AddFlowToExisting(t, p, children, now)))
  {
    assert SimJob(k, s.jobs[p], t.jobs[p]);
    var listed := s.jobs[p].childIds;
    ConflictSame(k, s, t, p, listed, children);
    var conflict := FirstConflict(s, p, listed, children);
    if conflict.Some? {
      ErrorsAlike(k, s, t, conflict.value);
    } else {
      ScanSim(k, s, t, children, {}, now);
      var a, b := ScanDeduplication(s, children, {}, now), ScanDeduplication(t, children, {}, now);
      var joining := Unskipped(children, a.skipped);
      ScannedSim(k, a, b, children, []);
      ErrorsAlike(k, a.state, b.state, ConfigError);
      GrownSim(k, s, t, a.state, b.state, p, joining, now);
    }
  }

  /** The stored parent takes the newcomers. */
  lemma GrownSim(k: Lag, s: QueueState, t: QueueState, u: QueueState, v: QueueState, p: JobId, joining: seq<Job>, now: Time)
    requires Sim(k, s, t) && Sim(k, u, v) && p in s.jobs && p in u.jobs && forall i | 0 <= i < |joining| :: joining[i].enqueuedSeq == 0
    ensures var listed := s.jobs[p].childIds;
            var x, y := u.jobs[p].(childIds := AppendNew(listed, Ids(joining))), v.jobs[p].(childIds := AppendNew(listed, Ids(joining)));
            var w, z := JoinFlow(u, p, x, joining, now), JoinFlow(v, p, y, joining, now);
            Alike(k, FlowOutcome(Out(w, Ok(JobFlow(if p in w.jobs then w.jobs[p] else s.jobs[p],
                                                   StoredJobs(AttachChildren(Put(u, p, x), p, joining), Ids(joining)))))),
                     FlowOutcome(Out(z, Ok(JobFlow(if p in z.jobs then z.jobs[p] else t.jobs[p],
                                                   StoredJobs(AttachChildren(Put(v, p, y), p, joining), Ids(joining)))))))
  {
    assert SimJob(k, s.jobs[p], t.jobs[p]) && SimJob(k, u.jobs[p], v.jobs[p]);
    var listed := s.jobs[p].childIds;
    var x, y := u.jobs[p].(childIds := AppendNew(listed, Ids(joining))), v.jobs[p].(childIds := AppendNew(listed, Ids(joining)));
    JoinSim(k, u, v, p, x, y, joining, now);
    FlowAlike(k, JoinFlow(u, p, x, joining, now), JoinFlow(v, p, y, joining, now), p, s.jobs[p], t.jobs[p],
              StoredJobs(AttachChildren(Put(u, p, x), p, joining), Ids(joining)),
              StoredJobs(AttachChildren(Put(v, p, y), p, joining), Ids(joining)));
  }

  /** The newcomers a scan lets through, and whether their repeat keys are free. */
  lemma ScannedSim(k: Lag, a: Scan, b: Scan, children: seq<Job>, roots: seq<Job>)
    requires SimScan(k, a, b) && forall i | 0 <= i < |children| :: children[i].enqueuedSeq == 0
    ensures var joining := Unskipped(children, a.skipped);
            && (forall i | 0 <= i < |joining| :: joining[i].enqueuedSeq == 0)
            && Unstored(b.state, joining) == Unstored(a.state, joining)
            && (RepeatKeysFree(b.state, Unstored(a.state, joining)) <==> RepeatKeysFree(a.state, Unstored(a.state, joining)))
            && (RepeatKeysFree(b.state, roots + Unstored(a.state, joining)) <==> RepeatKeysFree(a.state, roots + Unstored(a.state, joining)))
  {
    var joining := Unskipped(children, a.skipped);
    UnskippedUnsequenced(children, a.skipped);
    UnstoredSame(k, a.state, b.state, joining);
    KeysFreeSame(k, a.state, b.state, Unstored(a.state, joining));
    KeysFreeSame(k, a.state, b.state, roots + Unstored(a.state, joining));
  }

  lemma ParkBehindSim(k: Lag, s: QueueState, t: QueueState, p: JobId, children: seq<Job>, now: Time)
    requires Sim(k, s, t) && p in s.jobs && forall i | 0 <= i < |children| :: children[i].enqueuedSeq == 0
    requires Owners.UniqueOwners(s, now)
    ensures Alike(k, JobsOutcome(ParkBehind(s, p, children, now)), JobsOutcome(ParkBehind(t, p, children, now)))
  {
    assert SimJob(k, s.jobs[p], t.jobs[p]);
    var listed := s.jobs[p].childIds;
    ConflictSame(k, s, t, p, listed, children);
    var conflict := FirstConflict(s, p, listed, children);
    if conflict.Some? {
      ErrorsAlike(k, s, t, conflict.value);
    } else {
      ScanSim(k, s, t, children, {}, now);
      var a, b := ScanDeduplication(s, children, {}, now), ScanDeduplication(t, children, {}, now);
      ScannedSim(k, a, b, children, []);
      ErrorsAlike(k, a.state, b.state, ConfigError);
      ParkedSim(k, a.state, b.state, p, listed, Unskipped(children, a.skipped), now);
    }
  }

  /** The active parent parks itself behind the newcomers. */
  lemma ParkedSim(k: Lag, u: QueueState, v: QueueState, p: JobId, listed: seq<JobId>, joining: seq<Job>, now: Time)
    requires Sim(k, u, v) && p in u.jobs && forall i | 0 <= i < |joining| :: joining[i].enqueuedSeq == 0
    ensures var x, y := Parked(u.jobs[p]).(childIds := AppendNew(listed, Ids(joining))), Parked(v.jobs[p]).(childIds := AppendNew(listed, Ids(joining)));
            Alike(k, JobsOutcome(Out(JoinFlow(u, p, x, joining, now), Ok(StoredJobs(AttachChildren(Put(u, p, x), p, joining), Ids(joining))))),
                     JobsOutcome(Out(JoinFlow(v, p, y, joining, now), Ok(StoredJobs(AttachChildren(Put(v, p, y), p, joining), Ids(joining))))))
  {
    assert SimJob(k, u.jobs[p], v.jobs[p]);
    JoinSim(k, u, v, p, Parked(u.jobs[p]).(childIds := AppendNew(listed, Ids(joining))),
            Parked(v.jobs[p]).(childIds := AppendNew(listed, Ids(joining))), joining, now);
  }

  lemma StartSim(k: Lag, s: QueueState, t: QueueState, root: Job, joining: seq<Job>, now: Time)
    requires Sim(k, s, t) && root.enqueuedSeq == 0 && forall i | 0 <= i < |joining| :: joining[i].enqueuedSeq == 0
    ensures Sim(k, StartFlow(s, root, joining, now), StartFlow(t, root, joining, now))
    ensures SimJobs(k, StoredJobs(AttachChildren(Insert(s, root), root.id, joining), Ids(joining)),
                       StoredJobs(AttachChildren(Insert(t, root), root.id, joining), Ids(joining)))
  {
    InsertSim(k, s, t, root, root);
    AttachAllSim(k, Insert(s, root), Insert(t, root), root.id, joining);
    StoredSim(k, AttachChildren(Insert(s, root), root.id, joining), AttachChildren(Insert(t, root), root.id, joining), Ids(joining));
    ReleaseSim(k, AttachChildren(Insert(s, root), root.id, joining), AttachChildren(Insert(t, root), root.id, joining), root.id, now);
  }

  lemma FoundFlowAlike(k: Lag, u: QueueState, v: QueueState, a: Job, b: Job, childIds: seq<JobId>)
    requires Sim(k, u, v) && SimJob(k, a, b)
    ensures Alike(k, FlowOutcome(Out(u, Ok(JobFlow(a, StoredJobs(u, childIds))))), FlowOutcome(Out(v, Ok(JobFlow(b, StoredJobs(v, childIds))))))
  {
    StoredSim(k, u, v, childIds);
  }

  lemma DuplicateFlowSim(k: Lag, s: QueueState, t: QueueState, parent: Job, children: seq<Job>, id: JobId, now: Time)
    requires Sim(k, s, t) && id in s.jobs
    requires FindDeduplicationOwner(s, parent, now) == Some(id) && FindDeduplicationOwner(t, parent, now) == Some(id)
    ensures Alike(k, FlowOutcome(AddNewFlow(s, parent, children, now)), FlowOutcome(AddNewFlow(t, parent, children, now)))
  {
    assert SimJob(k, s.jobs[id], t.jobs[id]);
    ExtendSim(k, s, t, parent, id, now);
    FoundFlowAlike(k, ExtendExpiration(s, parent, id, now), ExtendExpiration(t, parent, id, now), s.jobs[id], t.jobs[id], s.jobs[id].childIds);
  }

  lemma FreshFlowSim(k: Lag, s: QueueState, t: QueueState, parent: Job, children: seq<Job>, now: Time)
    requires Sim(k, s, t) && parent.enqueuedSeq == 0 && forall i | 0 <= i < |children| :: children[i].enqueuedSeq == 0
    requires Owners.UniqueOwners(s, now)
    requires FindDeduplicationOwner(s, parent, now).None? && FindDeduplicationOwner(t, parent, now).None?
    ensures Alike(k, FlowOutcome(AddNewFlow(s, parent, children, now)), FlowOutcome(AddNewFlow(t, parent, children, now)))
  {
    ConflictSame(k, s, t, parent.id, [], children);
    var taken := if ActiveDeduplicationId(parent, now).Some? then {ActiveDeduplicationId(parent, now).value} else {};
    ScanSim(k, s, t, children, taken, now);
    StartScannedSim(k, ScanDeduplication(s, children, taken, now), ScanDeduplication(t, children, taken, now), parent, children, now);
  }

  lemma AddNewFlowSim(k: Lag, s: QueueState, t: QueueState, parent: Job, children: seq<Job>, now: Time)
    requires Sim(k, s, t) && parent.enqueuedSeq == 0 && forall i | 0 <= i < |children| :: children[i].enqueuedSeq == 0
    requires Owners.UniqueOwners(s, now)
    ensures Alike(k, FlowOutcome(AddNewFlow(s, parent, children, now)), FlowOutcome(AddNewFlow(t, parent, children, now)))
  {
    FoundSame(k, s, t, parent, now);
    var owner := FindDeduplicationOwner(s, parent, now);
    if owner.Some? {
      DuplicateFlowSim(k, s, t, parent, children, owner.value, now);
    } else {
      FreshFlowSim(k, s, t, parent, children, now);
    }
  }

  /** A flow nobody owns, checked and started. */
  lemma StartScannedSim(k: Lag, a: Scan, b: Scan, parent: Job, children: seq<Job>, now: Time)
    requires SimScan(k, a, b) && parent.enqueuedSeq == 0 && forall i | 0 <= i < |children| :: children[i].enqueuedSeq == 0
    ensures Alike(k, FlowOutcome(StartScanned(a, parent, children, now)), FlowOutcome(StartScanned(b, parent, children, now)))
  {
    var joining := Unskipped(children, a.skipped);
    var root := RootJob(parent, joining, now);
    ScannedSim(k, a, b, children, [root]);
    if !a.conflict && RepeatKeysFree(a.state, [root] + Unstored(a.state, joining)) {
      StartSim(k, a.state, b.state, root, joining, now);
      FlowAlike(k, StartFlow(a.state, root, joining, now), StartFlow(b.state, root, joining, now), root.id, root, root,
                StoredJobs(AttachChildren(Insert(a.state, root), root.id, joining), Ids(joining)),
                StoredJobs(AttachChildren(Insert(b.state, root), root.id, joining), Ids(joining)));
    }
  }

  lemma ChildJobsUnsequenced(queue: string, p: JobId, specs: seq<JobSpec>, uuids: seq<JobId>, now: Time)
    requires |specs| == |uuids|
    ensures forall i | 0 <= i < |specs| :: ChildJobs(queue, p, specs, uuids, now)[i].enqueuedSeq == 0
  {
  }

  lemma AddFlowSim(k: Lag, s: QueueState, t: QueueState, spec: JobSpec, uuid: JobId, specs: seq<JobSpec>, uuids: seq<JobId>, now: Time)
    requires Sim(k, s, t) && |specs| == |uuids| && Owners.UniqueOwners(s, now)
    ensures Alike(k, FlowOutcome(AddFlow(s, spec, uuid, specs, uuids, now)), FlowOutcome(AddFlow(t, spec, uuid, specs, uuids, now)))
  {
    var parent := NewJob(s.queue, spec, uuid, now);
    ChildJobsUnsequenced(s.queue, parent.id, specs, uuids, now);
    var children := ChildJobs(s.queue, parent.id, specs, uuids, now);
    if parent.id in s.jobs { AddFlowToExistingSim(k, s, t, parent.id, children, now); }
    else { AddNewFlowSim(k, s, t, parent, children, now); }
  }

  lemma LeaseSame(k: Lag, s: QueueState, t: QueueState, id: JobId, token: Token)
    requires Sim(k, s, t)
    ensures RequireLease(t, id, token) == RequireLease(s, id, token)
  {
    if id in s.jobs { assert SimJob(k, s.jobs[id], t.jobs[id]); }
  }

  lemma AddFlowChildrenSim(k: Lag, s: QueueState, t: QueueState, id: JobId, token: Token, specs: seq<JobSpec>, uuids: seq<JobId>, now: Time)
    requires Sim(k, s, t) && |specs| == |uuids| && Owners.UniqueOwners(s, now)
    ensures Alike(k, JobsOutcome(AddFlowChildren(s, id, token, specs, uuids, now)), JobsOutcome(AddFlowChildren(t, id, token, specs, uuids, now)))
  {
    LeaseSame(k, s, t, id, token);
    ChildJobsUnsequenced(s.queue, id, specs, uuids, now);
    if id in s.jobs {
      ChildCountsSame(k, s, t, id);
      ParkBehindSim(k, s, t, id, ChildJobs(s.queue, id, specs, uuids, now), now);
    }
  }

  lemma RemoveUnprocessedSim(k: Lag, s: QueueState, t: QueueState, p: JobId, now: Time)
    requires Sim(k, s, t)
    ensures Alike(k, Removal(s, OpRemoveUnprocessedChildren(p, now)), Removal(t, OpRemoveUnprocessedChildren(p, now)))
  {
    if p in s.jobs {
      assert SimJob(k, s.jobs[p], t.jobs[p]);
      WalkSame(k, s, t, s.jobs[p].childIds, {});
      var ids := Descendants.Walk(s.jobs, s.jobs[p].childIds, {}).out;
      RemoveAllSim(k, s, t, Elements(ids));
      StoredSim(k, s, t, ids);
      ReleaseSim(k, RemoveAll(s, Elements(ids)), RemoveAll(t, Elements(ids)), p, now);
    }
  }

  lemma DetachedSim(k: Lag, s: QueueState, t: QueueState, p: JobId, c: JobId)
    requires Sim(k, s, t) && p in s.jobs && c in s.jobs
    ensures Sim(k, Detached(s, p, c), Detached(t, p, c))
  {
    assert SimJob(k, s.jobs[p], t.jobs[p]);
    var a, b := s.jobs[p].(childIds := Without(s.jobs[p].childIds, c)), t.jobs[p].(childIds := Without(t.jobs[p].childIds, c));
    PutSim(k, s, t, p, a, b);
    ClearSim(k, Put(s, p, a), Put(t, p, b), p, c);
    var u, v := ClearChildDependency(Put(s, p, a), p, c), ClearChildDependency(Put(t, p, b), p, c);
    assert c in u.jobs;
    assert SimJob(k, u.jobs[c], v.jobs[c]);
    PutSim(k, u, v, c, u.jobs[c].(parentId := None), v.jobs[c].(parentId := None));
  }

  lemma ParentedDetachSim(k: Lag, s: QueueState, t: QueueState, p: JobId, c: JobId, now: Time)
    requires Sim(k, s, t) && c in s.jobs && p in s.jobs && s.jobs[c].parentId == Some(p)
    ensures Alike(k, FlagOutcome(RemoveChildDependency(s, c, now)), FlagOutcome(RemoveChildDependency(t, c, now)))
  {
    assert SimJob(k, s.jobs[c], t.jobs[c]) && SimJob(k, s.jobs[p], t.jobs[p]);
    DetachedSim(k, s, t, p, c);
    ReleaseSim(k, Detached(s, p, c), Detached(t, p, c), p, now);
  }

  lemma DetachSim(k: Lag, s: QueueState, t: QueueState, c: JobId, now: Time)
    requires Sim(k, s, t)
    ensures Alike(k, FlagOutcome(RemoveChildDependency(s, c, now)), FlagOutcome(RemoveChildDependency(t, c, now)))
  {
    if c in s.jobs {
      assert SimJob(k, s.jobs[c], t.jobs[c]);
      if s.jobs[c].parentId.Some? && s.jobs[c].parentId.value in s.jobs {
        ParentedDetachSim(k, s, t, s.jobs[c].parentId.value, c, now);
      }
    }
  }

  // -- Claiming and finishing ----------------------------------------------------------------------------

  lemma ClaimSim(k: Lag, s: QueueState, t: QueueState, worker: string, token: Token, leaseFor: Duration, now: Time)
    requires Sim(k, s, t)
    ensures Sim(k, ClaimNext(s, worker, token, leaseFor, now).state, ClaimNext(t, worker, token, leaseFor, now).state)
    ensures var a, b := ClaimNext(s, worker, token, leaseFor, now).reply, ClaimNext(t, worker, token, leaseFor, now).reply;
            a.Some? == b.Some? && (a.Some? ==> SimJob(k, a.value, b.value))
  {
    if !s.paused {
      PromoteDueSim(k, s, t, now);
      var u, v := PromoteDue(s, now).state, PromoteDue(t, now).state;
      ClaimableSame(k, u, v);
      assert Claimable(v) == Claimable(u);
      if Claimable(u).Some? { ClaimedSim(k, u, v, Claimable(u).value, worker, token, leaseFor, now); }
    }
  }

  lemma ClaimedSim(k: Lag, u: QueueState, v: QueueState, id: JobId, worker: string, token: Token, leaseFor: Duration, now: Time)
    requires Sim(k, u, v) && id in u.jobs
    ensures var a, b := Claimed(u.jobs[id], worker, token, leaseFor, now), Claimed(v.jobs[id], worker, token, leaseFor, now);
            SimJob(k, a, b) && Sim(k, Put(u, id, a), Put(v, id, b))
  {
    assert SimJob(k, u.jobs[id], v.jobs[id]);
    PutSim(k, u, v, id, Claimed(u.jobs[id], worker, token, leaseFor, now), Claimed(v.jobs[id], worker, token, leaseFor, now));
  }

  /** The repeat successor and the release of the parent. */
  lemma SuccessionSim(k: Lag, queue: string, s: QueueState, t: QueueState, a: Job, b: Job, uuid: JobId, cronNext: Option<Time>, now: Time)
    requires Sim(k, s, t) && SimJob(k, a, b)
    ensures NextRepeatJob(queue, b, uuid, cronNext, now) == NextRepeatJob(queue, a, uuid, cronNext, now)
    ensures var next := NextRepeatJob(queue, a, uuid, cronNext, now);
            var u := if next.Some? then Insert(s, next.value) else s;
            var v := if next.Some? then Insert(t, next.value) else t;
            Sim(k, if a.parentId.Some? then ReleaseParent(u, a.parentId.value, now) else u,
                   if a.parentId.Some? then ReleaseParent(v, a.parentId.value, now) else v)
  {
    var next := NextRepeatJob(queue, a, uuid, cronNext, now);
    if next.Some? { InsertSim(k, s, t, next.value, next.value); }
    var u := if next.Some? then Insert(s, next.value) else s;
    var v := if next.Some? then Insert(t, next.value) else t;
    if a.parentId.Some? { ReleaseSim(k, u, v, a.parentId.value, now); }
  }

  lemma CompletedSim(k: Lag, s: QueueState, t: QueueState, id: JobId, token: Token, value: Value, uuid: JobId, cronNext: Option<Time>, now: Time)
    requires Sim(k, s, t) && id in s.jobs
    requires RequireLease(s, id, token).None? && ChildCounts(s, id).unprocessed == 0 && ChildCounts(s, id).failed == 0
    requires RequireLease(t, id, token).None? && ChildCounts(t, id).unprocessed == 0 && ChildCounts(t, id).failed == 0
    ensures Alike(k, JobOutcome(Complete(s, id, token, value, uuid, cronNext, now)), JobOutcome(Complete(t, id, token, value, uuid, cronNext, now)))
  {
    assert SimJob(k, s.jobs[id], t.jobs[id]);
    var a, b := CompletedJob(s.jobs[id], value, now), CompletedJob(t.jobs[id], value, now);
    FinishSim(k, s, t, id, a, b, now);
    var u := RetainFinished(RecordWithParent(Put(s, id, a), a), id, a, now);
    var v := RetainFinished(RecordWithParent(Put(t, id, b), b), id, b, now);
    SuccessionSim(k, s.queue, u, v, a, b, uuid, cronNext, now);
  }

  lemma CompleteSim(k: Lag, s: QueueState, t: QueueState, id: JobId, token: Token, value: Value, uuid: JobId, cronNext: Option<Time>, now: Time)
    requires Sim(k, s, t)
    ensures Alike(k, JobOutcome(Complete(s, id, token, value, uuid, cronNext, now)), JobOutcome(Complete(t, id, token, value, uuid, cronNext, now)))
  {
    LeaseSame(k, s, t, id, token);
    if RequireLease(s, id, token).None? {
      ChildCountsSame(k, s, t, id);
      if ChildCounts(s, id).unprocessed == 0 && ChildCounts(s, id).failed == 0 {
        CompletedSim(k, s, t, id, token, value, uuid, cronNext, now);
      }
    }
  }

  lemma FailSim(k: Lag, s: QueueState, t: QueueState, id: JobId, token: Token, error: string, allowRetry: bool, backoff: Duration, now: Time)
    requires Sim(k, s, t)
    ensures Alike(k, JobOutcome(Fail(s, id, token, error, allowRetry, backoff, now)), JobOutcome(Fail(t, id, token, error, allowRetry, backoff, now)))
  {
    LeaseSame(k, s, t, id, token);
    if RequireLease(s, id, token).None? {
      assert SimJob(k, s.jobs[id], t.jobs[id]);
      PutSim(k, s, t, id, RetryingJob(s.jobs[id], error, backoff, now), RetryingJob(t.jobs[id], error, backoff, now));
      var a, b := FailedJob(s.jobs[id], error, now), FailedJob(t.jobs[id], error, now);
      FinishSim(k, s, t, id, a, b, now);
      ReactSim(k, RetainFinished(RecordWithParent(Put(s, id, a), a), id, a, now),
                  RetainFinished(RecordWithParent(Put(t, id, b), b), id, b, now), a, b, now);
    }
  }

  lemma LeaseOpsSim(k: Lag, s: QueueState, t: QueueState, id: JobId, token: Token, d: Duration, now: Time)
    requires Sim(k, s, t)
    ensures Alike(k, JobOutcome(Renew(s, id, token, d, now)), JobOutcome(Renew(t, id, token, d, now)))
    ensures Alike(k, JobOutcome(DelayActive(s, id, token, d, now)), JobOutcome(DelayActive(t, id, token, d, now)))
    ensures Alike(k, JobOutcome(ReleaseActive(s, id, token, now)), JobOutcome(ReleaseActive(t, id, token, now)))
  {
    LeaseSame(k, s, t, id, token);
    if RequireLease(s, id, token).None? {
      assert SimJob(k, s.jobs[id], t.jobs[id]);
      PutSim(k, s, t, id, Renew(s, id, token, d, now).reply.value, Renew(t, id, token, d, now).reply.value);
      PutSim(k, s, t, id, DelayActive(s, id, token, d, now).reply.value, DelayActive(t, id, token, d, now).reply.value);
      PutSim(k, s, t, id, ReleaseActive(s, id, token, now).reply.value, ReleaseActive(t, id, token, now).reply.value);
    }
  }

  // -- Management ------------------------------------------------------------------------------------------

  lemma PromoteSim(k: Lag, s: QueueState, t: QueueState, id: JobId, now: Time)
    requires Sim(k, s, t)
    ensures Alike(k, JobOutcome(Promote(s, id, now)), JobOutcome(Promote(t, id, now)))
  {
    if id in s.jobs {
      var a, b := s.jobs[id].(state := Waiting, scheduledAt := now), t.jobs[id].(state := Waiting, scheduledAt := now);
      assert SimJob(k, s.jobs[id], t.jobs[id]);
      PutInOrderSim(k, s, t, id, a, b);
      StoredAlike(k, PutInOrder(s, id, a), PutInOrder(t, id, b), id);
    }
  }

  lemma RescheduleSim(k: Lag, s: QueueState, t: QueueState, id: JobId, delay: Duration, now: Time)
    requires Sim(k, s, t)
    ensures Alike(k, JobOutcome(Reschedule(s, id, delay, now)), JobOutcome(Reschedule(t, id, delay, now)))
  {
    if id in s.jobs {
      assert SimJob(k, s.jobs[id], t.jobs[id]);
      var a := s.jobs[id].(options := s.jobs[id].options.(delay := Some(delay)), scheduledAt := Later(now, delay));
      var b := t.jobs[id].(options := t.jobs[id].options.(delay := Some(delay)), scheduledAt := Later(now, delay));
      PutSim(k, s, t, id, a, b);
      OneAlike(k, Put(s, id, a), Put(t, id, b), a, b);
    }
  }

  lemma RetryConflictSame(k: Lag, s: QueueState, t: QueueState, id: JobId, now: Time)
    requires Sim(k, s, t) && id in s.jobs
    ensures RetryConflicts(t, id, now) <==> RetryConflicts(s, id, now)
  {
    var a := s.jobs[id];
    assert SimJob(k, a, t.jobs[id]);
    if DeduplicationId(a).Some? { DeduplicationOwnersSame(k, s, t, DeduplicationId(a).value, now); }
    if a.repeatKey.Some? { RepeatOwnersSame(k, s, t, a.repeatKey.value); }
  }

  lemma RetrySim(k: Lag, s: QueueState, t: QueueState, id: JobId, now: Time)
    requires Sim(k, s, t)
    ensures Alike(k, JobOutcome(Retry(s, id, now)), JobOutcome(Retry(t, id, now)))
  {
    if id in s.jobs {
      var a, b := s.jobs[id], t.jobs[id];
      assert SimJob(k, a, b);
      RetryConflictSame(k, s, t, id, now);
      RetriedSim(k, s, t, id, now);
      var u := PutInOrder(ForgetReleasedOwner(s, id, a), id, RetriedJob(a, now));
      var v := PutInOrder(ForgetReleasedOwner(t, id, b), id, RetriedJob(b, now));
      assert SimJob(k, u.jobs[id], v.jobs[id]);
      OneAlike(k, u, v, u.jobs[id], v.jobs[id]);
      if a.parentId.Some? {
        RestoreSim(k, u, v, a.parentId.value, id);
        OneAlike(k, RestoreParent(u, a.parentId.value, id), RestoreParent(v, a.parentId.value, id), u.jobs[id], v.jobs[id]);
      }
    }
  }

  lemma RetriedSim(k: Lag, s: QueueState, t: QueueState, id: JobId, now: Time)
    requires Sim(k, s, t) && id in s.jobs
    ensures id in t.jobs && Sim(k, PutInOrder(ForgetReleasedOwner(s, id, s.jobs[id]), id, RetriedJob(s.jobs[id], now)),
                                   PutInOrder(ForgetReleasedOwner(t, id, t.jobs[id]), id, RetriedJob(t.jobs[id], now)))
  {
    var a, b := s.jobs[id], t.jobs[id];
    assert SimJob(k, a, b);
    assert Sim(k, ForgetReleasedOwner(s, id, a), ForgetReleasedOwner(t, id, b));
    PutInOrderSim(k, ForgetReleasedOwner(s, id, a), ForgetReleasedOwner(t, id, b), id, RetriedJob(a, now), RetriedJob(b, now));
  }

  lemma SetPrioritySim(k: Lag, s: QueueState, t: QueueState, id: JobId, priority: nat, lifo: Option<bool>)
    requires Sim(k, s, t)
    ensures Alike(k, JobOutcome(SetPriority(s, id, priority, lifo)), JobOutcome(SetPriority(t, id, priority, lifo)))
  {
    if id in s.jobs {
      var a, b := s.jobs[id], t.jobs[id];
      assert SimJob(k, a, b);
      var options := a.options.(priority := priority, lifo := if lifo.Some? then lifo.value else a.options.lifo);
      var c, d := a.(priority := priority, options := options), b.(priority := priority, options := options);
      PutInOrderSim(k, s, t, id, c, d);
      StoredAlike(k, PutInOrder(s, id, c), PutInOrder(t, id, d), id);
    }
  }

  lemma SaveStacktraceSim(k: Lag, s: QueueState, t: QueueState, id: JobId, reason: string)
    requires Sim(k, s, t)
    ensures Alike(k, JobOutcome(SaveStacktrace(s, id, reason)), JobOutcome(SaveStacktrace(t, id, reason)))
  {
    if id in s.jobs {
      assert SimJob(k, s.jobs[id], t.jobs[id]);
      PutSim(k, s, t, id, s.jobs[id].(failedReason := Some(reason)), t.jobs[id].(failedReason := Some(reason)));
    }
  }

  lemma RemoveJobSim(k: Lag, s: QueueState, t: QueueState, id: JobId, now: Time)
    requires Sim(k, s, t)
    ensures Alike(k, RemovedOutcome(RemoveJob(s, id, now)), RemovedOutcome(RemoveJob(t, id, now)))
  {
    if id in s.jobs {
      assert SimJob(k, s.jobs[id], t.jobs[id]);
      RemoveSim(k, s, t, id);
      if s.jobs[id].parentId.Some? { ReleaseSim(k, Remove(s, id), Remove(t, id), s.jobs[id].parentId.value, now); }
    }
  }

  lemma UpsertConflictSame(k: Lag, s: QueueState, t: QueueState, job: Job, owner: Option<JobId>, now: Time)
    requires Sim(k, s, t) && Owners.UniqueOwners(s, now) && (owner.Some? ==> owner.value in s.jobs)
    ensures UpsertConflict(t, job, owner, now) == UpsertConflict(s, job, owner, now)
  {
    if owner.Some? { assert SimJob(k, s.jobs[owner.value], t.jobs[owner.value]); }
    if DeduplicationId(job).Some? { OwnerLookupSame(k, s, t, DeduplicationId(job).value, now); }
  }

  lemma UpsertedSim(k: Lag, s: QueueState, t: QueueState, spec: JobSpec, uuid: JobId, now: Time)
    requires Sim(k, s, t) && UpsertRepeat(s, spec, uuid, now).reply.Ok? && UpsertRepeat(t, spec, uuid, now).reply.Ok?
    requires var key := NewJob(s.queue, spec, uuid, now).repeatKey.value; Find(t, RepeatOwners(t, key)) == Find(s, RepeatOwners(s, key))
    ensures Alike(k, JobOutcome(UpsertRepeat(s, spec, uuid, now)), JobOutcome(UpsertRepeat(t, spec, uuid, now)))
  {
    var job := NewJob(s.queue, spec, uuid, now);
    var owner := Find(s, RepeatOwners(s, job.repeatKey.value));
    ReplaceSim(k, s, t, job, owner);
    StoredAlike(k, ReplaceRepeat(s, job, owner), ReplaceRepeat(t, job, owner), job.id);
  }

  lemma UpsertSim(k: Lag, s: QueueState, t: QueueState, spec: JobSpec, uuid: JobId, now: Time)
    requires Sim(k, s, t) && Determined(s, now)
    ensures Alike(k, JobOutcome(UpsertRepeat(s, spec, uuid, now)), JobOutcome(UpsertRepeat(t, spec, uuid, now)))
  {
    var job := NewJob(s.queue, spec, uuid, now);
    if job.repeatKey.Some? {
      RepeatLookupSame(k, s, t, job.repeatKey.value);
      UpsertConflictSame(k, s, t, job, Find(s, RepeatOwners(s, job.repeatKey.value)), now);
      if UpsertRepeat(s, spec, uuid, now).reply.Ok? { UpsertedSim(k, s, t, spec, uuid, now); }
    }
  }

  lemma ReplaceSim(k: Lag, s: QueueState, t: QueueState, job: Job, owner: Option<JobId>)
    requires Sim(k, s, t) && job.enqueuedSeq == 0
    ensures Sim(k, ReplaceRepeat(s, job, owner), ReplaceRepeat(t, job, owner))
    ensures job.id in ReplaceRepeat(s, job, owner).jobs
  {
    if owner.Some? {
      RemoveSim(k, s, t, owner.value);
      InsertSim(k, Remove(s, owner.value), Remove(t, owner.value), job, job);
    } else {
      InsertSim(k, s, t, job, job);
    }
  }

  lemma {:induction false} ParentsSame(k: Lag, s: QueueState, t: QueueState, ids: seq<JobId>)
    requires Sim(k, s, t)
    ensures ParentsOf(t, ids) == ParentsOf(s, ids)
    decreases |ids|
  {
    if ids != [] {
      var n := |ids| - 1;
      ParentsSame(k, s, t, ids[..n]);
      if ids[n] in s.jobs { assert SimJob(k, s.jobs[ids[n]], t.jobs[ids[n]]); }
    }
  }

  lemma RemoveAllAndReleaseSim(k: Lag, s: QueueState, t: QueueState, ids: seq<JobId>, now: Time)
    requires Sim(k, s, t)
    ensures Sim(k, RemoveAllAndRelease(s, ids, now), RemoveAllAndRelease(t, ids, now))
  {
    ParentsSame(k, s, t, ids);
    RemoveAllSim(k, s, t, Elements(ids));
    ReleaseAllSim(k, RemoveAll(s, Elements(ids)), RemoveAll(t, Elements(ids)), ParentsOf(s, ids), now);
  }

  /** Removing listed records answers with the records as they were. */
  lemma RemoveListedSim(k: Lag, s: QueueState, t: QueueState, ids: seq<JobId>, others: seq<JobId>, now: Time)
    requires Sim(k, s, t) && others == ids
    ensures Sim(k, RemoveListed(s, ids, now).state, RemoveListed(t, others, now).state)
    ensures SimJobs(k, RemoveListed(s, ids, now).reply, RemoveListed(t, others, now).reply)
  {
    RemoveAllAndReleaseSim(k, s, t, ids, now);
    StoredSim(k, s, t, ids);
  }

  lemma CleanListedSim(k: Lag, s: QueueState, t: QueueState, state: JobState, cutoff: Time, limit: nat, now: Time)
    requires Sim(k, s, t)
    ensures var ids, others := CleanIds(s, state, cutoff, limit), CleanIds(t, state, cutoff, limit);
            && Sim(k, RemoveListed(s, ids, now).state, RemoveListed(t, others, now).state)
            && SimJobs(k, RemoveListed(s, ids, now).reply, RemoveListed(t, others, now).reply)
  {
    CleanIdsSame(k, s, t, state, cutoff, limit);
    RemoveListedSim(k, s, t, CleanIds(s, state, cutoff, limit), CleanIds(t, state, cutoff, limit), now);
  }

  lemma CleanSim(k: Lag, s: QueueState, t: QueueState, state: JobState, grace: Duration, limit: nat, now: Time)
    requires Sim(k, s, t) && limit > 0
    ensures Sim(k, Clean(s, state, grace, limit, now).state, Clean(t, state, grace, limit, now).state)
    ensures SimJobs(k, Clean(s, state, grace, limit, now).reply, Clean(t, state, grace, limit, now).reply)
  {
    CleanListedSim(k, s, t, state, Earlier(now, grace), limit, now);
  }

  lemma CleanRanksSame(k: Lag, s: QueueState, t: QueueState, state: JobState, cutoff: Time)
    requires Sim(k, s, t)
    ensures CleanRanks(t, state, cutoff) == CleanRanks(s, state, cutoff)
  {
    forall id | id in s.jobs ensures t.jobs[id] == s.jobs[id].(enqueuedSeq := t.jobs[id].enqueuedSeq) { assert SimJob(k, s.jobs[id], t.jobs[id]); }
  }

  lemma CleanIdsSame(k: Lag, s: QueueState, t: QueueState, state: JobState, cutoff: Time, limit: nat)
    requires Sim(k, s, t)
    ensures CleanIds(t, state, cutoff, limit) == CleanIds(s, state, cutoff, limit)
  {
    CleanRanksSame(k, s, t, state, cutoff);
  }

  lemma DrainRanksSame(k: Lag, s: QueueState, t: QueueState, includeDelayed: bool)
    requires Sim(k, s, t) && Repeats.UniqueRepeats(s)
    ensures DrainRanks(t, includeDelayed) == DrainRanks(s, includeDelayed)
  {
    forall id | id in s.jobs
      ensures t.jobs[id] == s.jobs[id].(enqueuedSeq := t.jobs[id].enqueuedSeq)
           && (IsDelayedRepeatOwner(t, id) <==> IsDelayedRepeatOwner(s, id))
    {
      assert SimJob(k, s.jobs[id], t.jobs[id]);
      if s.jobs[id].repeatKey.Some? { RepeatLookupSame(k, s, t, s.jobs[id].repeatKey.value); }
    }
  }

  lemma DrainSim(k: Lag, s: QueueState, t: QueueState, includeDelayed: bool, now: Time)
    requires Sim(k, s, t) && Repeats.UniqueRepeats(s)
    ensures Sim(k, Drain(s, includeDelayed, now).state, Drain(t, includeDelayed, now).state)
    ensures SimJobs(k, Drain(s, includeDelayed, now).reply, Drain(t, includeDelayed, now).reply)
  {
    DrainRanksSame(k, s, t, includeDelayed);
    var ranks := DrainRanks(s, includeDelayed);
    RemoveListedSim(k, s, t, Sorted(ranks, ranks.Keys), Sorted(ranks, ranks.Keys), now);
  }

  lemma SomeActiveSame(k: Lag, s: QueueState, t: QueueState)
    requires Sim(k, s, t)
    ensures (exists id | id in t.jobs :: t.jobs[id].state == Active) <==> exists id | id in s.jobs :: s.jobs[id].state == Active
  {
    forall id | id in s.jobs ensures t.jobs[id].state == s.jobs[id].state { assert SimJob(k, s.jobs[id], t.jobs[id]); }
  }

  lemma ObliterateSim(k: Lag, s: QueueState, t: QueueState, force: bool)
    requires Sim(k, s, t)
    ensures Sim(k, Obliterate(s, force).state, Obliterate(t, force).state)
    ensures Obliterate(t, force).reply == Obliterate(s, force).reply
  {
    SomeActiveSame(k, s, t);
    assert |s.jobs| == |s.jobs.Keys| && |t.jobs| == |t.jobs.Keys|;
  }

  lemma RemoveRepeatSim(k: Lag, s: QueueState, t: QueueState, key: string, now: Time)
    requires Sim(k, s, t) && Repeats.UniqueRepeats(s)
    ensures Alike(k, RemovedOutcome(RemoveRepeat(s, key, now)), RemovedOutcome(RemoveRepeat(t, key, now)))
  {
    RepeatLookupSame(k, s, t, key);
    var owner := Find(s, RepeatOwners(s, key));
    if owner.Some? { RemoveJobSim(k, s, t, owner.value, now); }
  }

  // -- Every operation -----------------------------------------------------------------------------------------

  lemma SubmissionSim(k: Lag, s: QueueState, t: QueueState, op: Op)
    requires Sim(k, s, t) && op.WellFormed() && op.Submits() && Determined(s, op.now)
    ensures Alike(k, Submission(s, op), Submission(t, op))
  {
    match op
    case OpAdd(spec, uuid, now) => AddSim(k, s, t, spec, uuid, now);
    case OpAddMany(specs, uuids, now) => AddManySim(k, s, t, specs, uuids, now);
    case OpAddFlow(parent, uuid, specs, uuids, now) => AddFlowSim(k, s, t, parent, uuid, specs, uuids, now);
    case OpAddFlowChildren(id, token, specs, uuids, now) => AddFlowChildrenSim(k, s, t, id, token, specs, uuids, now);
    case OpUpsertRepeat(spec, uuid, now) => UpsertSim(k, s, t, spec, uuid, now);
  }

  lemma WorkSim(k: Lag, s: QueueState, t: QueueState, op: Op)
    requires Sim(k, s, t) && op.WellFormed() && op.Works()
    ensures Alike(k, Work(s, op), Work(t, op))
  {
    match op
    case OpPromoteDue(now) => PromoteDueSim(k, s, t, now);
    case OpClaim(worker, token, leaseFor, now) => ClaimSim(k, s, t, worker, token, leaseFor, now);
    case OpComplete(id, token, value, uuid, cronNext, now) => CompleteSim(k, s, t, id, token, value, uuid, cronNext, now);
    case OpFail(id, token, error, allowRetry, backoff, now) => FailSim(k, s, t, id, token, error, allowRetry, backoff, now);
    case OpRecoverStalled(now) => RecoverStalledSim(k, s, t, now);
    case OpRetry(id, now) => RetrySim(k, s, t, id, now);
  }

  lemma GivenUpSim(k: Lag, s: QueueState, t: QueueState, op: Op)
    requires Sim(k, s, t) && (op.OpRenew? || op.OpDelayActive? || op.OpReleaseActive?)
    ensures Alike(k, Rewrite(s, op), Rewrite(t, op))
  {
    match op
    case OpRenew(id, token, leaseFor, now) => LeaseOpsSim(k, s, t, id, token, leaseFor, now);
    case OpDelayActive(id, token, delay, now) => LeaseOpsSim(k, s, t, id, token, delay, now);
    case OpReleaseActive(id, token, now) => LeaseOpsSim(k, s, t, id, token, 0, now);
  }

  lemma ManagedSim(k: Lag, s: QueueState, t: QueueState, op: Op)
    requires Sim(k, s, t) && (op.OpPromote? || op.OpReschedule? || op.OpSetPriority? || op.OpSaveStacktrace?)
    ensures Alike(k, Rewrite(s, op), Rewrite(t, op))
  {
    match op
    case OpPromote(id, now) => PromoteSim(k, s, t, id, now);
    case OpReschedule(id, delay, now) => RescheduleSim(k, s, t, id, delay, now);
    case OpSetPriority(id, priority, lifo, _) => SetPrioritySim(k, s, t, id, priority, lifo);
    case OpSaveStacktrace(id, reason, _) => SaveStacktraceSim(k, s, t, id, reason);
  }

  lemma ReleasedKeySim(k: Lag, s: QueueState, t: QueueState, op: Op)
    requires Sim(k, s, t) && op.OpRemoveDeduplicationKey? && Owners.UniqueOwners(s, op.now)
    ensures Alike(k, Rewrite(s, op), Rewrite(t, op))
  {
    OwnerLookupSame(k, s, t, op.key, op.now);
  }

  lemma ObliteratedSim(k: Lag, s: QueueState, t: QueueState, op: Op)
    requires Sim(k, s, t) && op.OpObliterate?
    ensures Alike(k, Rewrite(s, op), Rewrite(t, op))
  {
    ObliterateSim(k, s, t, op.force);
  }

  lemma FlagsSim(k: Lag, s: QueueState, t: QueueState, op: Op)
    requires Sim(k, s, t) && (op.OpRemoveDeduplicationKey? || op.OpObliterate? || op.OpSetPaused?) && Owners.UniqueOwners(s, op.now)
    ensures Alike(k, Rewrite(s, op), Rewrite(t, op))
  {
    if op.OpRemoveDeduplicationKey? {
      ReleasedKeySim(k, s, t, op);
    } else if op.OpObliterate? {
      ObliteratedSim(k, s, t, op);
    }
  }

  lemma RewriteSim(k: Lag, s: QueueState, t: QueueState, op: Op)
    requires Sim(k, s, t) && op.TouchesOne() && !op.OpRehash? && Owners.UniqueOwners(s, op.now)
    ensures Alike(k, Rewrite(s, op), Rewrite(t, op))
  {
    if op.OpRenew? || op.OpDelayActive? || op.OpReleaseActive? {
      GivenUpSim(k, s, t, op);
    } else if op.OpPromote? || op.OpReschedule? || op.OpSetPriority? || op.OpSaveStacktrace? {
      ManagedSim(k, s, t, op);
    } else {
      FlagsSim(k, s, t, op);
    }
  }

  lemma RemovalSim(k: Lag, s: QueueState, t: QueueState, op: Op)
    requires Sim(k, s, t) && op.CleansUp() && Repeats.UniqueRepeats(s)
    ensures Alike(k, Removal(s, op), Removal(t, op))
  {
    match op
    case OpRemoveUnprocessedChildren(id, now) => RemoveUnprocessedSim(k, s, t, id, now);
    case OpRemoveChildDependency(id, now) => DetachSim(k, s, t, id, now);
    case OpRemove(id, now) => RemoveJobSim(k, s, t, id, now);
    case OpRemoveRepeat(key, now) => RemoveRepeatSim(k, s, t, key, now);
    case OpClean(state, grace, limit, now) => if limit > 0 { CleanSim(k, s, t, state, grace, limit, now); }
    case OpDrain(includeDelayed, now) => DrainSim(k, s, t, includeDelayed, now);
  }

  /** The same operation, or a change of the map's order on both sides. */
  ghost predicate SameButOrder(a: Op, b: Op)
  {
    if a.OpRehash? then b.OpRehash? && b.now == a.now else b == a
  }

  /** Whatever the operation, both queues answer alike and stay related. */
  lemma StepSim(k: Lag, s: QueueState, t: QueueState, a: Op, b: Op)
    requires Sim(k, s, t) && a.WellFormed() && SameButOrder(a, b) && Determined(s, a.now)
    ensures Alike(k, Step(s, a), Step(t, b))
  {
    if a.OpRehash? {
    } else if a.Submits() {
      SubmissionSim(k, s, t, a);
    } else if a.CleansUp() {
      RemovalSim(k, s, t, a);
    } else if a.TouchesOne() {
      RewriteSim(k, s, t, a);
    } else {
      WorkSim(k, s, t, a);
    }
  }

  // -- Every run ---------------------------------------------------------------------------------------------------

  /** All a caller sees of one operation, but for waiting sequences. */
  datatype Answer = Answer(success: bool, error: Option<LaneError>, jobs: seq<Job>, count: nat)

  function Unsequenced(jobs: seq<Job>): (r: seq<Job>)
    ensures |r| == |jobs| && forall i | 0 <= i < |jobs| :: r[i] == jobs[i].(enqueuedSeq := 0)
  {
    seq(|jobs|, i requires 0 <= i < |jobs| => jobs[i].(enqueuedSeq := 0))
  }

  function AnswerOf(o: Outcome): Answer { Answer(o.success, o.error, Unsequenced(o.jobs), o.count) }

  ghost function Answers(s: QueueState, ops: seq<Op>): seq<Answer>
    requires forall i | 0 <= i < |ops| :: ops[i].WellFormed()
    decreases |ops|
  {
    if ops == [] then [] else [AnswerOf(Step(s, ops[0]))] + Answers(Step(s, ops[0]).state, ops[1..])
  }

  lemma AlikeAnswers(k: Lag, a: Outcome, b: Outcome)
    requires Alike(k, a, b)
    ensures AnswerOf(b) == AnswerOf(a)
  {
    forall i | 0 <= i < |a.jobs| ensures b.jobs[i].(enqueuedSeq := 0) == a.jobs[i].(enqueuedSeq := 0) { assert SimJob(k, a.jobs[i], b.jobs[i]); }
    assert Unsequenced(b.jobs) == Unsequenced(a.jobs);
  }

  /** Two runs of the same operations, under orders of the map that may differ at any time. */
  ghost predicate SameRun(ops: seq<Op>, others: seq<Op>)
  {
    |others| == |ops| && forall i | 0 <= i < |ops| :: ops[i].WellFormed() && SameButOrder(ops[i], others[i])
  }

  /** Nobody comes to share an id: lookups stay determined. */
  lemma StepKeepsDetermined(s: QueueState, op: Op)
    requires Determined(s, op.now) && op.WellFormed() && FreshIds(s, op)
    requires op.OpComplete? && Step(s, op).success ==> Runs.TakesAFreeId(s, op)
    ensures Determined(Step(s, op).state, op.now)
  {
    StepKeepsCore(s, op);
    Runs.StepKeepsUniqueOwners(s, op);
    Repeats.StepKeepsUniqueRepeats(s, op);
  }

  lemma LaterDetermined(s: QueueState, clock: Time, now: Time)
    requires Determined(s, clock) && clock <= now
    ensures Determined(s, now)
  {
    Owners.UniqueStaysUnique(s, clock, now);
  }

  lemma {:induction false} RunSim(k: Lag, s: QueueState, t: QueueState, ops: seq<Op>, others: seq<Op>, clock: Time)
    requires Sim(k, s, t) && SameRun(ops, others) && Determined(s, clock) && Runs.TimedRun(s, ops, clock)
    ensures Sim(k, Run(s, ops), Run(t, others)) && Answers(t, others) == Answers(s, ops)
    decreases |ops|
  {
    if ops != [] {
      assert SameButOrder(ops[0], others[0]);
      LaterDetermined(s, clock, ops[0].now);
      StepSim(k, s, t, ops[0], others[0]);
      AlikeAnswers(k, Step(s, ops[0]), Step(t, others[0]));
      StepKeepsDetermined(s, ops[0]);
      RunSim(k, Step(s, ops[0]).state, Step(t, others[0]).state, ops[1..], others[1..], ops[0].now);
    }
  }

  /**
    The run gives both queues the same answers, in particular claims the same
    jobs in the same order, and leaves the same records up to waiting sequences
    of equal order.
   */
  ghost predicate RunsAlike(s: QueueState, r: QueueState, ops: seq<Op>, others: seq<Op>)
    requires SameRun(ops, others)
  {
    && Answers(r, others) == Answers(s, ops)
    && r.sequence <= s.sequence && Sim(Lag(r.sequence, s.sequence - r.sequence), Run(s, ops), Run(r, others))
  }

  ghost predicate Lags(s: QueueState, r: QueueState)
  {
    r.sequence <= s.sequence && Sim(Lag(r.sequence, s.sequence - r.sequence), s, r)
  }

  lemma RestoredLags(s: QueueState, layout: Layout)
    requires Core(s)
    ensures Lags(s, FromSnapshot(TakeSnapshot(s), layout))
  {
    SnapshotRestoresAllButSequence(s, layout);
  }

  lemma LaggingRunsAlike(s: QueueState, r: QueueState, ops: seq<Op>, others: seq<Op>, clock: Time)
    requires Lags(s, r) && SameRun(ops, others) && Determined(s, clock) && Runs.TimedRun(s, ops, clock)
    ensures RunsAlike(s, r, ops, others)
  {
    RunSim(Lag(r.sequence, s.sequence - r.sequence), s, r, ops, others, clock);
  }

  /**
    Restart equivalence: whatever the order of either hash map, a queue restored
    from its snapshot runs like the original.
   */
  lemma RestartIsUnobservable(s: QueueState, layout: Layout, ops: seq<Op>, others: seq<Op>, clock: Time)
    requires Determined(s, clock) && SameRun(ops, others) && Runs.TimedRun(s, ops, clock)
    ensures RunsAlike(s, FromSnapshot(TakeSnapshot(s), layout), ops, others)
  {
    RestoredLags(s, layout);
    LaggingRunsAlike(s, FromSnapshot(TakeSnapshot(s), layout), ops, others, clock);
  }
}
