/**
  What submissions answer and store: a job, an occurrence of a series, a flow,
  and more children for a running parent, with the owners they meet on the way.
 */
module SubmissionOutcomes {
  import opened Ordering
  import opened JobTypes
  import opened QueueModel
  import opened CoreInvariant
  import opened Operations
  import opened ParentOutcomes
  import opened ManagementOutcomes
  import opened Admission
  import Owners = DeduplicationOwnership
  import Repeats = RepeatSeries

  // -- New records --------------------------------------------------------------------------------

  /** The id asked for, else the generated one. */
  function SubmittedId(spec: JobSpec, uuid: JobId): JobId
  {
    match spec.options.jobId case Some(id) => id case None => uuid
  }

  /** The series a repeat job belongs to: the key asked for, else queue and name. */
  function SeriesOf(queue: string, spec: JobSpec): Option<string>
  {
    match spec.options.repeat
    case Some(repeat) => (match repeat.key case Some(key) => Some(key) case None => Some(queue + ":" + spec.name))
    case None => None
  }

  function ExpiryFor(spec: JobSpec, now: Time): Option<Time>
  {
    match spec.options.deduplication
    case Some(d) => (match d.ttl case Some(ttl) => Some(now + ttl) case None => None)
    case None => None
  }

  function ScheduleFor(spec: JobSpec, now: Time): Time
  {
    match spec.options.delay case Some(delay) => now + delay case None => now
  }

  /** A record that is exactly what was submitted, not counting its place in the queue. */
  predicate IsSubmitted(queue: string, spec: JobSpec, uuid: JobId, expiry: Option<Time>, job: Job, now: Time)
  {
    && job.id == SubmittedId(spec, uuid) && job.name == spec.name && job.options == spec.options && job.priority == spec.options.priority
    && job.createdAt == now && job.scheduledAt == ScheduleFor(spec, now)
    && job.state == (if ScheduleFor(spec, now) > now then Delayed else Waiting)
    && job.attemptsMade == 0 && job.stalledCount == 0 && IsUnleased(job)
    && job.processedAt.None? && job.finishedAt.None? && job.deferredFailure.None? && job.failedReason.None? && job.returnValue.None?
    && job.parentId.None? && job.childIds == []
    && job.repeatKey == SeriesOf(queue, spec) && job.repeatCount == 0 && job.deduplicationExpiresAt == expiry
  }

  lemma NewJobIsSubmitted(queue: string, spec: JobSpec, uuid: JobId, now: Time)
    ensures IsSubmitted(queue, spec, uuid, ExpiryFor(spec, now), NewJob(queue, spec, uuid, now), now)
  {
  }

  /** The submitted job is stored, answered, and queued behind all others; `gone` is not stored any more, everybody else is as before. */
  ghost predicate StoresNew(s: QueueState, o: Out<Result<Job>>, gone: set<JobId>, spec: JobSpec, uuid: JobId, expiry: Option<Time>, now: Time)
  {
    && o.reply.Ok? && IsSubmitted(s.queue, spec, uuid, expiry, o.reply.value, now) && BehindAll(s, o.reply.value)
    && o.state.jobs == (s.jobs - gone)[o.reply.value.id := o.reply.value]
  }

  // -- Meeting the owner of an id ---------------------------------------------------------------------

  /** The submission asks for the delayed, standalone owner of its id to make room. */
  predicate MakesRoom(spec: JobSpec, d: DeduplicationOptions, owner: Job)
  {
    && d.replace && spec.options.repeat.None?
    && owner.state == Delayed && owner.parentId.None? && owner.childIds == [] && owner.repeatKey.None?
  }

  /** The owner makes room and hands its expiry on, or is answered, with its expiry extended if that is asked for. */
  ghost predicate MeetsOwner(s: QueueState, o: Out<Result<Job>>, x: JobId, spec: JobSpec, d: DeduplicationOptions, uuid: JobId, now: Time)
    requires x in s.jobs
  {
    var owner := s.jobs[x];
    if MakesRoom(spec, d, owner) then
      StoresNew(s, o, {x}, spec, uuid, if d.ttl.Some? then owner.deduplicationExpiresAt else None, now)
    else
      var expiry := if d.extend && d.ttl.Some? then Some(now + d.ttl.value) else owner.deduplicationExpiresAt;
      o.reply == Ok(owner.(deduplicationExpiresAt := expiry)) && o.state == s.(jobs := s.jobs[x := owner.(deduplicationExpiresAt := expiry)])
  }

  /** What submitting one job leads to. */
  ghost predicate AddSays(s: QueueState, o: Out<Result<Job>>, spec: JobSpec, uuid: JobId, now: Time)
  {
    if !MayBeSubmitted(spec.options, now) then o == Out(s, Err(ConfigError))
    else if SubmittedId(spec, uuid) in s.jobs then o == Out(s, Ok(s.jobs[SubmittedId(spec, uuid)]))
    else if spec.options.deduplication.Some? && exists x :: Occupies(s, x, spec.options.deduplication.value.id, now) then
      exists x :: Occupies(s, x, spec.options.deduplication.value.id, now) && MeetsOwner(s, o, x, spec, spec.options.deduplication.value, uuid, now)
    else if SeriesOf(s.queue, spec).Some? && exists x :: Occurs(s, x, SeriesOf(s.queue, spec).value) then
      exists x :: Occurs(s, x, SeriesOf(s.queue, spec).value) && o == Out(s, Ok(s.jobs[x]))
    else StoresNew(s, o, {}, spec, uuid, ExpiryFor(spec, now), now)
  }

  lemma InsertStoresNew(s: QueueState, t: QueueState, gone: set<JobId>, spec: JobSpec, uuid: JobId, expiry: Option<Time>, job: Job, now: Time)
    requires IsSubmitted(s.queue, spec, uuid, expiry, job, now) && t.jobs == s.jobs - gone && t.sequence == s.sequence
    ensures StoresNew(s, Out(Insert(t, job), Ok(Insert(t, job).jobs[job.id])), gone, spec, uuid, expiry, now)
  {
    InsertStores(t, job);
  }

  /** The owner an id's lookup finds, if any, occupies it. */
  lemma FoundOccupies(s: QueueState, job: Job, d: DeduplicationOptions, now: Time)
    requires job.options.deduplication == Some(d) && !job.state.IsTerminal()
    requires job.deduplicationExpiresAt.Some? ==> now < job.deduplicationExpiresAt.value
    ensures FindDeduplicationOwner(s, job, now).Some? <==> exists x :: Occupies(s, x, d.id, now)
    ensures FindDeduplicationOwner(s, job, now).Some? ==> Occupies(s, FindDeduplicationOwner(s, job, now).value, d.id, now)
  {
    forall x ensures x in DeduplicationOwners(s, d.id, now) <==> Occupies(s, x, d.id, now) { OwnersOccupy(s, x, d.id, now); }
    if x :| Occupies(s, x, d.id, now) { assert x in DeduplicationOwners(s, d.id, now); }
  }

  lemma FoundOccurs(s: QueueState, key: string)
    ensures Find(s, RepeatOwners(s, key)).Some? <==> exists x :: Occurs(s, x, key)
    ensures Find(s, RepeatOwners(s, key)).Some? ==> Occurs(s, Find(s, RepeatOwners(s, key)).value, key)
  {
    forall x ensures x in RepeatOwners(s, key) <==> Occurs(s, x, key) { RepeatOwnersOccur(s, x, key); }
    if x :| Occurs(s, x, key) { assert x in RepeatOwners(s, key); }
  }

  /** Submitting a job stores it, unless its options are invalid, its id or its series is taken, or the owner of its deduplication id stands in. */
  lemma AddAnswers(s: QueueState, spec: JobSpec, uuid: JobId, now: Time)
    ensures AddSays(s, Add(s, spec, uuid, now), spec, uuid, now)
  {
    var job := NewJob(s.queue, spec, uuid, now);
    NewJobIsSubmitted(s.queue, spec, uuid, now);
    OptionsAreValidIff(spec.options, now);
    if spec.options.ValidAt(now) && job.id !in s.jobs {
      if spec.options.deduplication.Some? {
        FoundOccupies(s, job, spec.options.deduplication.value, now);
        if FindDeduplicationOwner(s, job, now).Some? {
          OwnerIsMet(s, spec, uuid, FindDeduplicationOwner(s, job, now).value, now);
        } else {
          UnownedIsAdded(s, spec, uuid, now);
        }
      } else {
        UnownedIsAdded(s, spec, uuid, now);
      }
    }
  }

  lemma OwnerIsMet(s: QueueState, spec: JobSpec, uuid: JobId, x: JobId, now: Time)
    requires spec.options.deduplication.Some? && x in s.jobs && SubmittedId(spec, uuid) !in s.jobs
    requires FindDeduplicationOwner(s, NewJob(s.queue, spec, uuid, now), now) == Some(x)
    ensures MeetsOwner(s, AddJob(s, NewJob(s.queue, spec, uuid, now), now), x, spec, spec.options.deduplication.value, uuid, now)
  {
    var job := NewJob(s.queue, spec, uuid, now);
    NewJobIsSubmitted(s.queue, spec, uuid, now);
    if MakesRoom(spec, spec.options.deduplication.value, s.jobs[x]) {
      var kept := PreserveExpiration(job, s.jobs[x]);
      InsertStoresNew(s, Remove(s, x), {x}, spec, uuid, kept.deduplicationExpiresAt, kept, now);
    }
  }

  lemma UnownedIsAdded(s: QueueState, spec: JobSpec, uuid: JobId, now: Time)
    requires SubmittedId(spec, uuid) !in s.jobs && FindDeduplicationOwner(s, NewJob(s.queue, spec, uuid, now), now).None?
    ensures var o := AddJob(s, NewJob(s.queue, spec, uuid, now), now);
            if SeriesOf(s.queue, spec).Some? && exists x :: Occurs(s, x, SeriesOf(s.queue, spec).value)
            then exists x :: Occurs(s, x, SeriesOf(s.queue, spec).value) && o == Out(s, Ok(s.jobs[x]))
            else StoresNew(s, o, {}, spec, uuid, ExpiryFor(spec, now), now)
  {
    var job := NewJob(s.queue, spec, uuid, now);
    NewJobIsSubmitted(s.queue, spec, uuid, now);
    if SeriesOf(s.queue, spec).Some? { FoundOccurs(s, SeriesOf(s.queue, spec).value); }
    assert s.jobs - {} == s.jobs;
    if FindRepeatOwner(s, job).None? { InsertStoresNew(s, s, {}, spec, uuid, ExpiryFor(spec, now), job, now); }
  }

  // -- Submitting many --------------------------------------------------------------------------------

  /** The states a batch passes through, one submission after the other. */
  ghost predicate AddsEach(states: seq<QueueState>, jobs: seq<Job>, specs: seq<JobSpec>, uuids: seq<JobId>, now: Time)
    requires |specs| == |uuids|
  {
    && |states| == |specs| + 1 && |jobs| == |specs|
    && forall k | 0 <= k < |specs| :: AddSays(states[k], Out(states[k + 1], Ok(jobs[k])), specs[k], uuids[k], now)
  }

  lemma ValidIsAdded(s: QueueState, spec: JobSpec, uuid: JobId, now: Time)
    requires spec.options.ValidAt(now)
    ensures Add(s, spec, uuid, now) == AddJob(s, NewJob(s.queue, spec, uuid, now), now)
  {
  }

  lemma AddJobSucceeds(s: QueueState, job: Job, now: Time)
    ensures AddJob(s, job, now).reply.Ok? && AddJob(s, job, now).state.queue == s.queue
  {
  }

  lemma AddedOneByOne(s: QueueState, spec: JobSpec, uuid: JobId, now: Time)
    requires spec.options.ValidAt(now)
    ensures var o := AddJob(s, NewJob(s.queue, spec, uuid, now), now);
            o.reply.Ok? && o.state.queue == s.queue && AddSays(s, o, spec, uuid, now)
  {
    AddAnswers(s, spec, uuid, now);
    ValidIsAdded(s, spec, uuid, now);
    AddJobSucceeds(s, NewJob(s.queue, spec, uuid, now), now);
  }

  lemma {:induction false} BatchAddsEach(s: QueueState, specs: seq<JobSpec>, uuids: seq<JobId>, now: Time) returns (states: seq<QueueState>)
    requires |specs| == |uuids| && forall k | 0 <= k < |specs| :: specs[k].options.ValidAt(now)
    ensures var o := AddJobs(s, NewJobs(s.queue, specs, uuids, now), now);
            && AddsEach(states, o.reply, specs, uuids, now) && states[0] == s && states[|specs|] == o.state && o.state.queue == s.queue
    decreases |specs|
  {
    if specs == [] {
      states := [s];
    } else {
      var n := |specs| - 1;
      var earlier := BatchAddsEach(s, specs[..n], uuids[..n], now);
      var before := AddJobs(s, NewJobs(s.queue, specs[..n], uuids[..n], now), now);
      var last := AddJob(before.state, NewJob(s.queue, specs[n], uuids[n], now), now);
      AddedOneByOne(before.state, specs[n], uuids[n], now);
      BatchGoesOn(s, specs, uuids, now);
      states := earlier + [last.state];
      AddsOneMore(earlier, before.reply, last, specs, uuids, now);
    }
  }

  lemma BatchGoesOn(s: QueueState, specs: seq<JobSpec>, uuids: seq<JobId>, now: Time)
    requires |specs| == |uuids| && specs != []
    ensures var n := |specs| - 1;
            var before := AddJobs(s, NewJobs(s.queue, specs[..n], uuids[..n], now), now);
            var last := AddJob(before.state, NewJob(s.queue, specs[n], uuids[n], now), now);
            AddJobs(s, NewJobs(s.queue, specs, uuids, now), now) == Out(last.state, before.reply + (if last.reply.Ok? then [last.reply.value] else []))
  {
    var n := |specs| - 1;
    assert NewJobs(s.queue, specs, uuids, now)[..n] == NewJobs(s.queue, specs[..n], uuids[..n], now);
  }

  lemma AddsOneMore(earlier: seq<QueueState>, jobs: seq<Job>, last: Out<Result<Job>>, specs: seq<JobSpec>, uuids: seq<JobId>, now: Time)
    requires |specs| == |uuids| && specs != [] && last.reply.Ok?
    requires AddsEach(earlier, jobs, specs[..|specs| - 1], uuids[..|specs| - 1], now)
    requires AddSays(earlier[|specs| - 1], last, specs[|specs| - 1], uuids[|specs| - 1], now)
    ensures AddsEach(earlier + [last.state], jobs + [last.reply.value], specs, uuids, now)
  {
    var n := |specs| - 1;
    assert last == Out(last.state, Ok(last.reply.value));
    forall k | 0 <= k < n ensures AddSays(earlier[k], Out(earlier[k + 1], Ok(jobs[k])), specs[k], uuids[k], now) {
      assert specs[..n][k] == specs[k] && uuids[..n][k] == uuids[k];
    }
  }

  /** A batch is refused whole if any options are; otherwise its jobs are submitted in order, each meeting what the earlier ones left. */
  lemma AddManyAnswers(s: QueueState, specs: seq<JobSpec>, uuids: seq<JobId>, now: Time)
    requires |specs| == |uuids|
    ensures var o := AddMany(s, specs, uuids, now);
            if exists k :: 0 <= k < |specs| && !MayBeSubmitted(specs[k].options, now) then o == Out(s, Err(ConfigError))
            else o.reply.Ok? && exists states :: AddsEach(states, o.reply.value, specs, uuids, now) && states[0] == s && states[|specs|] == o.state
  {
    forall k | 0 <= k < |specs| ensures specs[k].options.ValidAt(now) <==> MayBeSubmitted(specs[k].options, now) {
      OptionsAreValidIff(specs[k].options, now);
    }
    if forall k | 0 <= k < |specs| :: specs[k].options.ValidAt(now) {
      var states := BatchAddsEach(s, specs, uuids, now);
    }
  }

  // -- Taking over a series --------------------------------------------------------------------------------

  /** What upserting an occurrence of series `key`, now held by `owner` if anybody, leads to. */
  ghost predicate UpsertSays(s: QueueState, o: Out<Result<Job>>, owner: Option<JobId>, spec: JobSpec, uuid: JobId, now: Time)
    requires owner.Some? ==> owner.value in s.jobs
  {
    if owner.Some? && s.jobs[owner.value].state == Active && s.jobs[owner.value].lockToken.Some? then o == Out(s, Err(JobLeaseConflict))
    else if owner.Some? && (s.jobs[owner.value].parentId.Some? || s.jobs[owner.value].childIds != []) then o == Out(s, Err(JobStateConflict))
    else if SubmittedId(spec, uuid) in s.jobs && owner != Some(SubmittedId(spec, uuid)) then o == Out(s, Err(ConfigError))
    else if spec.options.deduplication.Some? && exists x :: Some(x) != owner && Occupies(s, x, spec.options.deduplication.value.id, now) then
      o == Out(s, Err(JobStateConflict))
    else StoresNew(s, o, if owner.Some? then {owner.value} else {}, spec, uuid, ExpiryFor(spec, now), now)
  }

  /** An upsert replaces the live occurrence of its series, or starts it, unless a worker, a flow, or an owner of its ids forbids it. */
  lemma UpsertAnswers(s: QueueState, spec: JobSpec, uuid: JobId, now: Time)
    requires Owners.UniqueOwners(s, now) && Repeats.UniqueRepeats(s)
    ensures var o := UpsertRepeat(s, spec, uuid, now);
            if !MayBeSubmitted(spec.options, now) || spec.options.repeat.None? || SeriesOf(s.queue, spec) == Some("") then o == Out(s, Err(ConfigError))
            else exists owner :: OwnsSeries(s, owner, SeriesOf(s.queue, spec).value) && UpsertSays(s, o, owner, spec, uuid, now)
  {
    OptionsAreValidIff(spec.options, now);
    if spec.options.ValidAt(now) && spec.options.repeat.Some? && SeriesOf(s.queue, spec) != Some("") {
      var job := NewJob(s.queue, spec, uuid, now);
      var owner := Find(s, RepeatOwners(s, job.repeatKey.value));
      NewJobIsSubmitted(s.queue, spec, uuid, now);
      FoundOccurs(s, job.repeatKey.value);
      UpsertedSays(s, spec, uuid, job, owner, now);
      assert OwnsSeries(s, owner, SeriesOf(s.queue, spec).value);
    }
  }

  /** `owner` is the live occurrence of the series, if there is one. */
  ghost predicate OwnsSeries(s: QueueState, owner: Option<JobId>, key: string)
  {
    match owner
    case Some(x) => Occurs(s, x, key)
    case None => forall x :: !Occurs(s, x, key)
  }

  lemma UpsertedSays(s: QueueState, spec: JobSpec, uuid: JobId, job: Job, owner: Option<JobId>, now: Time)
    requires Owners.UniqueOwners(s, now) && (owner.Some? ==> owner.value in s.jobs)
    requires job == NewJob(s.queue, spec, uuid, now) && job.repeatKey.Some? && job.repeatKey.value != ""
    requires spec.options.ValidAt(now) && spec.options.repeat.Some? && owner == Find(s, RepeatOwners(s, job.repeatKey.value))
    ensures UpsertSays(s, UpsertRepeat(s, spec, uuid, now), owner, spec, uuid, now)
  {
    NewJobIsSubmitted(s.queue, spec, uuid, now);
    if spec.options.deduplication.Some? { OnlyOwnerIsFound(s, spec.options.deduplication.value.id, owner, now); }
    if UpsertConflict(s, job, owner, now).None? {
      if owner.Some? {
        InsertStoresNew(s, Remove(s, owner.value), {owner.value}, spec, uuid, ExpiryFor(spec, now), job, now);
      } else {
        assert s.jobs - {} == s.jobs;
        InsertStoresNew(s, s, {}, spec, uuid, ExpiryFor(spec, now), job, now);
      }
    }
  }

  lemma OnlyOwnerIsFound(s: QueueState, d: string, owner: Option<JobId>, now: Time)
    requires Owners.UniqueOwners(s, now)
    ensures var found := Find(s, DeduplicationOwners(s, d, now)); found.Some? && found != owner <==> exists x :: Some(x) != owner && Occupies(s, x, d, now)
  {
    var found := Find(s, DeduplicationOwners(s, d, now));
    if found.Some? { OwnersOccupy(s, found.value, d, now); }
    if x :| Some(x) != owner && Occupies(s, x, d, now) {
      OwnersOccupy(s, x, d, now);
      Owners.OwnerLookupIsDetermined(s, d, now, x);
    }
  }

  /** Removing a series removes and answers its live occurrence, unless a worker holds that. */
  lemma SeriesRemovalAnswers(s: QueueState, key: string, now: Time)
    ensures var o := RemoveRepeat(s, key, now);
            exists owner :: OwnsSeries(s, owner, key)
              && match owner
                 case None => o == Out(s, Ok(None))
                 case Some(x) =>
                   if s.jobs[x].state == Active && s.jobs[x].lockToken.Some? then o == Out(s, Err(JobLeaseConflict))
                   else o.reply == Ok(Some(s.jobs[x])) && x !in o.state.jobs
                        && forall y | IsLiveJob(s, y) && y != x && s.jobs[x].parentId != Some(y) :: y in o.state.jobs && o.state.jobs[y] == s.jobs[y]
  {
    var owner := Find(s, RepeatOwners(s, key));
    FoundOccurs(s, key);
    assert OwnsSeries(s, owner, key);
    if owner.Some? { RemovalAnswers(s, owner.value, now); }
  }
}
