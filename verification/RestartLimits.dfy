/**
  Restart equivalence needs unique deduplication owners, and nothing more: where
  two jobs own one id, a restart can show.
 */
module RestartLimits {
  import opened Ordering
  import opened JobTypes
  import opened QueueModel
  import opened CoreInvariant
  import opened Operations
  import opened Steps
  import opened RestartModel
  import opened Restart
  import Owners = DeduplicationOwnership
  import Repeats = RepeatSeries
  import Runs = DeduplicationRuns

  /** No run from `clock` on tells the queue from one restored from its snapshot, whatever the order of the maps. */
  ghost predicate NeverObserved(s: QueueState, clock: Time)
  {
    forall layout, ops, others | SameRun(ops, others) && Runs.TimedRun(s, ops, clock) ::
      RunsAlike(s, FromSnapshot(TakeSnapshot(s), layout), ops, others)
  }

  // -- Ids nobody has -----------------------------------------------------------------------------

  predicate NoLongerThan(ids: set<JobId>, n: nat) { forall id | id in ids :: |id| <= n }

  lemma {:induction false} LengthsAreBounded(ids: set<JobId>)
    ensures exists n: nat :: NoLongerThan(ids, n)
    decreases |ids|
  {
    if ids == {} {
      assert NoLongerThan(ids, 0);
    } else {
      var a :| a in ids;
      LengthsAreBounded(ids - {a});
      var n: nat :| NoLongerThan(ids - {a}, n);
      assert NoLongerThan(ids, if |a| > n then |a| else n);
    }
  }

  lemma UnusedIdExists(ids: set<JobId>)
    ensures exists id: JobId :: id != "" && id !in ids
  {
    LengthsAreBounded(ids);
    var n: nat :| NoLongerThan(ids, n);
    var long: JobId := seq(n + 1, _ => 'x');
    assert |long| == n + 1;
    assert long != "" && long !in ids;
  }

  // -- Telling two owners apart ---------------------------------------------------------------------

  /** A submission under id `d` that gives way to whoever owns it. */
  function Probe(job: Job, d: string): JobSpec
  {
    JobSpec(job.name, job.options.(jobId := None, delay := None, repeat := None,
                                   deduplication := Some(DeduplicationOptions(d, None, false, false))))
  }

  lemma ProbeIsValid(s: QueueState, a: JobId, d: string, now: Time)
    requires Core(s) && IsDeduplicationOwner(s, a, d, now)
    ensures Probe(s.jobs[a], d).options.ValidAt(now)
  {
    assert WellFormedJob(a, s.jobs[a]);
  }

  /** It answers with the owner the lookup finds. */
  lemma ProbeFindsOwner(s: QueueState, a: JobId, d: string, uuid: JobId, now: Time)
    requires Core(s) && IsDeduplicationOwner(s, a, d, now) && uuid !in s.jobs
    ensures var found := Find(s, DeduplicationOwners(s, d, now));
            && found.Some?
            && Add(s, Probe(s.jobs[a], d), uuid, now).reply == Ok(s.jobs[found.value])
            && s.jobs[found.value].id == found.value
  {
    ProbeIsValid(s, a, d, now);
    assert a in DeduplicationOwners(s, d, now);
    var found := Find(s, DeduplicationOwners(s, d, now)).value;
    assert WellFormedJob(found, s.jobs[found]);
    var job := NewJob(s.queue, Probe(s.jobs[a], d), uuid, now);
    assert ActiveDeduplicationId(job, now) == Some(d) && job.id == uuid;
    assert FindDeduplicationOwner(s, job, now) == Some(found);
  }

  /** Some order of the map makes the lookup meet a given owner first. */
  lemma OrderDecides(s: QueueState, owners: set<JobId>, y: JobId)
    requires y in owners
    ensures Find(s.(layout := map[y := -1]), owners) == Some(y)
  {
    var ranks := Positions(map[y := -1], owners);
    assert IsLeast(ranks, owners, y);
    LeastUnique(ranks, owners, y, Least(ranks, owners));
  }

  /** After a restart that meets `y` first, the lookup finds it. */
  lemma RestoredLookup(s: QueueState, y: JobId, d: string, clock: Time)
    requires Core(s) && IsDeduplicationOwner(s, y, d, clock)
    ensures var r := FromSnapshot(TakeSnapshot(s), map[y := -1]);
            && Core(r) && r.jobs == s.jobs && r.queue == s.queue && r.releasedOwners == s.releasedOwners
            && DeduplicationOwners(r, d, clock) == DeduplicationOwners(s, d, clock)
            && Find(r, DeduplicationOwners(r, d, clock)) == Some(y)
  {
    var r := FromSnapshot(TakeSnapshot(s), map[y := -1]);
    SnapshotRestoresAllButSequence(s, map[y := -1]);
    RestoredCore(s, r);
    assert DeduplicationOwners(r, d, clock) == DeduplicationOwners(s, d, clock);
    assert y in DeduplicationOwners(s, d, clock);
    OrderDecides(r.(layout := map[]), DeduplicationOwners(s, d, clock), y);
  }

  /** Two owners of one id can be told apart after a restart. */
  lemma SharedIdIsObserved(s: QueueState, clock: Time, a: JobId, b: JobId, d: string)
    requires Core(s) && a != b && IsDeduplicationOwner(s, a, d, clock) && IsDeduplicationOwner(s, b, d, clock)
    ensures !NeverObserved(s, clock)
  {
    assert a in DeduplicationOwners(s, d, clock) && b in DeduplicationOwners(s, d, clock);
    var x := Find(s, DeduplicationOwners(s, d, clock)).value;
    var y := if x == a then b else a;
    UnusedIdExists(s.jobs.Keys);
    var uuid: JobId :| uuid != "" && uuid !in s.jobs.Keys;
    RestoredLookup(s, y, d, clock);
    OtherOwnerAnswers(s, FromSnapshot(TakeSnapshot(s), map[y := -1]), a, d, uuid, clock);
    Observed(s, map[y := -1], OpAdd(Probe(s.jobs[a], d), uuid, clock), clock);
  }

  lemma OtherOwnerAnswers(s: QueueState, r: QueueState, a: JobId, d: string, uuid: JobId, clock: Time)
    requires Core(s) && Core(r) && r.jobs == s.jobs && r.queue == s.queue && r.releasedOwners == s.releasedOwners
    requires IsDeduplicationOwner(s, a, d, clock) && uuid !in s.jobs && uuid != ""
    requires Find(r, DeduplicationOwners(r, d, clock)) != Find(s, DeduplicationOwners(s, d, clock))
    ensures Answers(r, [OpAdd(Probe(s.jobs[a], d), uuid, clock)]) != Answers(s, [OpAdd(Probe(s.jobs[a], d), uuid, clock)])
  {
    ProbeFindsOwner(s, a, d, uuid, clock);
    ProbeFindsOwner(r, a, d, uuid, clock);
    DifferentAnswers(s, r, OpAdd(Probe(s.jobs[a], d), uuid, clock));
  }

  lemma Observed(s: QueueState, layout: Layout, op: Op, clock: Time)
    requires op.OpAdd? && op.WellFormed() && op.now == clock
    requires Answers(FromSnapshot(TakeSnapshot(s), layout), [op]) != Answers(s, [op])
    ensures !NeverObserved(s, clock)
  {
    OneStepRun(s, op, clock);
    assert !RunsAlike(s, FromSnapshot(TakeSnapshot(s), layout), [op], [op]);
  }

  lemma RestoredCore(s: QueueState, r: QueueState)
    requires Core(s) && r == s.(sequence := r.sequence, layout := r.layout)
    requires forall id | id in s.jobs :: s.jobs[id].enqueuedSeq <= r.sequence
    ensures Core(r)
  {
  }

  lemma OneStepRun(s: QueueState, op: Op, clock: Time)
    requires op.OpAdd? && op.WellFormed() && op.now == clock
    ensures SameRun([op], [op]) && Runs.TimedRun(s, [op], clock)
  {
    assert Runs.TimedRun(Step(s, op).state, [], clock);
    assert [op][1..] == [];
  }

  lemma DifferentAnswers(s: QueueState, r: QueueState, op: Op)
    requires op.OpAdd? && op.WellFormed()
    requires var a, b := Add(s, op.spec, op.uuid, op.now).reply, Add(r, op.spec, op.uuid, op.now).reply;
             a.Ok? && b.Ok? && a.value.id != b.value.id
    ensures Answers(r, [op]) != Answers(s, [op])
  {
    assert Answers(s, [op])[0] == AnswerOf(Step(s, op)) && Answers(r, [op])[0] == AnswerOf(Step(r, op));
    assert AnswerOf(Step(s, op)).jobs[0].id == Add(s, op.spec, op.uuid, op.now).reply.value.id;
    assert AnswerOf(Step(r, op)).jobs[0].id == Add(r, op.spec, op.uuid, op.now).reply.value.id;
  }

  /**
    A restart can never be observed if and only if, at that moment, every
    deduplication id has at most one unreleased owner.
   */
  lemma RestartIsUnobservableIff(s: QueueState, clock: Time)
    requires Core(s) && Repeats.UniqueRepeats(s)
    ensures NeverObserved(s, clock) <==> Owners.UniqueOwners(s, clock)
  {
    if Owners.UniqueOwners(s, clock) {
      forall layout, ops, others | SameRun(ops, others) && Runs.TimedRun(s, ops, clock)
        ensures RunsAlike(s, FromSnapshot(TakeSnapshot(s), layout), ops, others)
      {
        RestartIsUnobservable(s, layout, ops, others, clock);
      }
    } else {
      var a, b, d :| IsDeduplicationOwner(s, a, d, clock) && IsDeduplicationOwner(s, b, d, clock) && a != b;
      SharedIdIsObserved(s, clock, a, b, d);
    }
  }
}
