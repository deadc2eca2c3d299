/**
  The values the job queue stores: job options and records, lifecycle states,
  retention policies and the pure functions over them (src/job/types.rs).

  Payloads, progress, logs and stack traces never influence scheduling and are
  not represented.
 */
module JobTypes {
  import opened Ordering

  type Time = int
  type Duration = nat

  /** `subtract_duration`. */
  function Earlier(at: Time, d: Duration): Time { at - d }

  /** `add_duration`, without its saturation. */
  function Later(at: Time, d: Duration): Time { at + d }

  type Token = nat

  datatype Option<+T> = None | Some(value: T)

  datatype LaneError = JobNotFound | JobStateConflict | JobLeaseConflict | ConfigError

  datatype Result<+T> = Ok(value: T) | Err(error: LaneError)

  datatype Value = Null | Json(text: string)

  datatype JobState = Waiting | Delayed | Active | WaitingChildren | Completed | Failed
  {
    predicate IsTerminal() { Completed? || Failed? }
  }

  datatype RepeatSchedule = Every(interval: Duration) | Cron(expression: string)

  datatype RepeatOptions = RepeatOptions(
    schedule: RepeatSchedule,
    limit: Option<nat>,
    endAt: Option<Time>,
    key: Option<string>)
  {
    /** Cron expressions are parsed by an external crate; only intervals are checked here. */
    predicate Valid()
    {
      && (schedule.Every? ==> schedule.interval > 0)
      && limit != Some(0)
    }
  }

  datatype DeduplicationOptions = DeduplicationOptions(
    id: string,
    ttl: Option<Duration>,
    replace: bool,
    extend: bool)
  {
    predicate Valid() { !IsBlank(id) && ttl != Some(0) }
  }

  datatype JobRetention = JobRetention(age: Option<Duration>, count: Option<nat>, limit: Option<nat>)
  {
    predicate RemovesCurrent() { count == Some(0) }

    predicate Valid() { (age.Some? || count.Some?) && age != Some(0) && limit != Some(0) }
  }

  const MAX_JOB_PRIORITY: nat := 2097152

  datatype JobOptions = JobOptions(
    jobId: Option<JobId>,
    priority: nat,
    lifo: bool,
    delay: Option<Duration>,
    maxRetries: nat,
    removeOnComplete: bool,
    completionRetention: Option<JobRetention>,
    removeOnFail: bool,
    failureRetention: Option<JobRetention>,
    maxStalledCount: nat,
    repeat: Option<RepeatOptions>,
    deduplication: Option<DeduplicationOptions>,
    ignoreDependencyOnFailure: bool,
    removeDependencyOnFailure: bool,
    continueParentOnFailure: bool,
    failParentOnFailure: bool)
  {
    predicate Valid()
    {
      && (jobId.Some? ==> ValidJobId(jobId.value))
      && priority <= MAX_JOB_PRIORITY
      && (repeat.Some? ==> repeat.value.Valid())
      && (deduplication.Some? ==> deduplication.value.Valid())
      && (completionRetention.Some? ==> completionRetention.value.Valid())
      && (failureRetention.Some? ==> failureRetention.value.Valid())
      && FailurePolicies() <= 1
    }

    /** `validate_job_options_at`: repeats may not already be over when added. */
    predicate ValidAt(now: Time)
    {
      Valid() && (repeat.Some? && repeat.value.endAt.Some? ==> repeat.value.endAt.value >= now)
    }

    function FailurePolicies(): nat
    {
      (if ignoreDependencyOnFailure then 1 else 0) + (if removeDependencyOnFailure then 1 else 0) +
      (if continueParentOnFailure then 1 else 0) + (if failParentOnFailure then 1 else 0)
    }

    /** A terminal failure of such a child does not fail its parent outright. */
    predicate HasFailurePolicy()
    {
      ignoreDependencyOnFailure || removeDependencyOnFailure ||
      continueParentOnFailure || failParentOnFailure
    }

    predicate RemovesCompletedImmediately()
    {
      removeOnComplete || (completionRetention.Some? && completionRetention.value.RemovesCurrent())
    }

    function CompletedRetention(): Option<JobRetention>
    {
      if removeOnComplete || completionRetention.None? || completionRetention.value.RemovesCurrent()
      then None else completionRetention
    }

    predicate RemovesFailedImmediately()
    {
      removeOnFail || (failureRetention.Some? && failureRetention.value.RemovesCurrent())
    }

    function FailedRetention(): Option<JobRetention>
    {
      if removeOnFail || failureRetention.None? || failureRetention.value.RemovesCurrent()
      then None else failureRetention
    }
  }

  // -- Id validation ---------------------------------------------------------

  predicate IsWhitespace(c: char)
  {
    || '\U{0009}' <= c <= '\U{000D}' || c == ' ' || c == '\U{0085}' || c == '\U{00A0}'
    || c == '\U{1680}' || '\U{2000}' <= c <= '\U{200A}' || c == '\U{2028}' || c == '\U{2029}'
    || c == '\U{202F}' || c == '\U{205F}' || c == '\U{3000}'
  }

  predicate IsBlank(s: string) { forall c | c in s :: IsWhitespace(c) }

  predicate AllDigits(s: string) { forall c | c in s :: '0' <= c <= '9' }

  predicate IsIntegerJobId(id: JobId)
  {
    if id == [] then false
    else if id[0] == '-' then |id| > 1 && '1' <= id[1] <= '9' && AllDigits(id[2..])
    else '1' <= id[0] <= '9' && AllDigits(id[1..])
  }

  predicate ValidJobId(id: JobId)
  {
    && !IsBlank(id)
    && id != "0" && !("0:" <= id)
    && !IsIntegerJobId(id)
  }

  // -- Job records -----------------------------------------------------------

  datatype Job = Job(
    id: JobId,
    name: string,
    options: JobOptions,
    priority: nat,
    state: JobState,
    attemptsMade: nat,
    stalledCount: nat,
    createdAt: Time,
    scheduledAt: Time,
    enqueuedSeq: nat,
    processedAt: Option<Time>,
    finishedAt: Option<Time>,
    workerId: Option<string>,
    lockToken: Option<Token>,
    leaseExpiresAt: Option<Time>,
    deferredFailure: Option<JobId>,
    failedReason: Option<string>,
    returnValue: Option<Value>,
    parentId: Option<JobId>,
    childIds: seq<JobId>,
    repeatKey: Option<string>,
    repeatCount: nat,
    deduplicationExpiresAt: Option<Time>)

  datatype JobSpec = JobSpec(name: string, options: JobOptions)

  datatype JobFlow = JobFlow(parent: Job, children: seq<Job>)

  /** The id a submission asks for, or the generated one. */
  function IdOf(spec: JobSpec, uuid: JobId): JobId
  {
    if spec.options.jobId.Some? then spec.options.jobId.value else uuid
  }

  /** `Job::new`; `uuid` is the generated id used when the caller assigned none. */
  function NewJob(queue: string, spec: JobSpec, uuid: JobId, now: Time): Job
  {
    var options := spec.options;
    var scheduledAt := if options.delay.Some? then Later(now, options.delay.value) else now;
    Job(
      IdOf(spec, uuid),
      spec.name, options, options.priority,
      if scheduledAt > now then Delayed else Waiting,
      0, 0, now, scheduledAt, 0,
      None, None, None, None, None, None, None, None, None, [],
      if options.repeat.None? then None
      else if options.repeat.value.key.Some? then options.repeat.value.key
      else Some(queue + ":" + spec.name),
      0,
      DeduplicationExpiration(options, now))
  }

  function DeduplicationExpiration(options: JobOptions, now: Time): Option<Time>
  {
    if options.deduplication.Some? && options.deduplication.value.ttl.Some?
    then Some(Later(now, options.deduplication.value.ttl.value)) else None
  }

  function StateAfterDependencies(scheduledAt: Time, now: Time): JobState
  {
    if scheduledAt > now then Delayed else Waiting
  }

  /** The job without any claim: no worker, token or lease. */
  function Unleased(job: Job): Job
  {
    job.(workerId := None, lockToken := None, leaseExpiresAt := None)
  }

  predicate ShouldRetry(job: Job)
  {
    job.options.maxRetries > 0 && job.attemptsMade <= job.options.maxRetries
  }

  /** Failed children of this kind stop blocking their parent. */
  predicate FailureReleasesDependency(child: Job)
  {
    child.options.ignoreDependencyOnFailure || child.options.removeDependencyOnFailure ||
    child.options.continueParentOnFailure
  }

  function ReferenceTime(job: Job): Time
  {
    if job.finishedAt.Some? then job.finishedAt.value
    else if job.processedAt.Some? then job.processedAt.value
    else job.scheduledAt
  }

  function DeduplicationId(job: Job): Option<string>
  {
    if job.options.deduplication.Some? then Some(job.options.deduplication.value.id) else None
  }

  /** The deduplication id this job occupies at time `now`, if any. */
  function ActiveDeduplicationId(job: Job, now: Time): Option<string>
  {
    if job.deduplicationExpiresAt.Some? && job.deduplicationExpiresAt.value <= now then None
    else if job.state.IsTerminal() && job.deduplicationExpiresAt.None? then None
    else DeduplicationId(job)
  }

  function ActiveRepeatKey(job: Job): Option<string>
  {
    if job.state.IsTerminal() then None else job.repeatKey
  }

  predicate IsRepeatSchedulerJob(job: Job)
  {
    ActiveRepeatKey(job).Some? && job.options.repeat.Some?
  }

  /**
    The successor of a completed repeat occurrence. `cronNext` stands for the
    external cron schedule's next occurrence after `now`.
   */
  function NextRepeatJob(queue: string, job: Job, uuid: JobId, cronNext: Option<Time>, now: Time): Option<Job>
  {
    if job.options.repeat.None? then None else
      var repeat := job.options.repeat.value;
      var count := job.repeatCount + 1;
      if repeat.limit.Some? && count >= repeat.limit.value then None else
        var next := if repeat.schedule.Every? then Some(Later(now, repeat.schedule.interval)) else cronNext;
        if next.None? then None
        else if repeat.endAt.Some? && next.value > repeat.endAt.value then None
        else
          var successor := NewJob(queue, JobSpec(job.name, job.options.(jobId := None)), uuid, now);
          Some(successor.(scheduledAt := next.value,
                      state := StateAfterDependencies(next.value, now),
                      repeatKey := job.repeatKey,
                      repeatCount := count))
  }
}
