/**
  One lane of the command queue and the admission gate all lanes share
  (src/queue.rs): the critical sections as functions on values, and as methods
  of the objects that hold the fields.
 */
module Lanes {
  import opened JobTypes

  type CommandId = nat

  // -- Lane values ---------------------------------------------------------------------------

  datatype LaneState = LaneState(
    pending: seq<CommandId>,
    active: nat,
    delayedRetries: nat,
    maxConcurrency: nat,
    maxRetries: nat)
  {
    predicate HasCapacity() { active < maxConcurrency }

    predicate CanStart() { HasCapacity() && pending != [] }

    predicate IsIdle() { pending == [] && active == 0 && delayedRetries == 0 }
  }

  function SaturatingDecrement(n: nat): nat { if n == 0 then 0 else n - 1 }

  function Enqueued(lane: LaneState, c: CommandId): LaneState
  {
    lane.(pending := lane.pending + [c])
  }

  /** `try_dequeue` on a lane that can start something. */
  function Dequeued(lane: LaneState): LaneState
    requires lane.CanStart()
  {
    lane.(active := lane.active + 1, pending := lane.pending[1..])
  }

  /** `retry_command`: the delayed retry is counted before the attempt's slot is given up. */
  function RetryCounted(lane: LaneState): LaneState
  {
    lane.(delayedRetries := lane.delayedRetries + 1)
  }

  /** The retry task, once its delay is over. */
  function RetryPushed(lane: LaneState, c: CommandId): LaneState
  {
    lane.(delayedRetries := SaturatingDecrement(lane.delayedRetries), pending := lane.pending + [c])
  }

  function SlotReleased(lane: LaneState): LaneState
  {
    lane.(active := SaturatingDecrement(lane.active))
  }

  /** `should_retry`. */
  predicate MayRetry(lane: LaneState, attempt: nat) { attempt < lane.maxRetries }

  // -- The objects -------------------------------------------------------------------------------

  class Lane {
    const priority: nat
    const maxConcurrency: nat
    const maxRetries: nat
    var pending: seq<CommandId>
    var active: nat
    var delayedRetries: nat

    function State(): LaneState
      reads this
    {
      LaneState(pending, active, delayedRetries, maxConcurrency, maxRetries)
    }

    constructor (priority: nat, maxConcurrency: nat, maxRetries: nat)
      ensures State() == LaneState([], 0, 0, maxConcurrency, maxRetries) && this.priority == priority
    {
      this.priority := priority;
      this.maxConcurrency := maxConcurrency;
      this.maxRetries := maxRetries;
      pending, active, delayedRetries := [], 0, 0;
    }

    method Enqueue(c: CommandId)
      modifies this
      ensures State() == Enqueued(old(State()), c)
    {
      pending := pending + [c];
    }

    /** A command leaves the front exactly when a slot is free for it. */
    method TryDequeue() returns (c: Option<CommandId>)
      modifies this
      ensures c.Some? <==> old(State()).CanStart()
      ensures c.Some? ==> c.value == old(pending)[0] && State() == Dequeued(old(State()))
      ensures c.None? ==> State() == old(State())
    {
      if active < maxConcurrency && pending != [] {
        active := active + 1;
        c := Some(pending[0]);
        pending := pending[1..];
      } else {
        c := None;
      }
    }

    method CountRetry()
      modifies this
      ensures State() == RetryCounted(old(State()))
    {
      delayedRetries := delayedRetries + 1;
    }

    method PushRetry(c: CommandId)
      modifies this
      ensures State() == RetryPushed(old(State()), c)
    {
      delayedRetries := if delayedRetries == 0 then 0 else delayedRetries - 1;
      pending := pending + [c];
    }

    method MarkCompleted()
      modifies this
      ensures State() == SlotReleased(old(State()))
    {
      active := if active == 0 then 0 else active - 1;
    }

    method IsIdle() returns (idle: bool)
      ensures idle == State().IsIdle()
    {
      idle := pending == [] && active == 0 && delayedRetries == 0;
    }
  }

  predicate ByPriority(lanes: seq<Lane>)
  {
    forall i, j | 0 <= i < j < |lanes| :: lanes[i].priority <= lanes[j].priority
  }

  /**
    `schedule_next` over lanes sorted by priority: starts one command, from a
    lane no less urgent than any other lane that could start one, or none when
    no lane can.
   */
  method ScheduleNext(lanes: seq<Lane>) returns (started: Option<CommandId>, from: nat)
    requires ByPriority(lanes) && forall i, j | 0 <= i < j < |lanes| :: lanes[i] != lanes[j]
    modifies lanes
    ensures started.None? <==> forall i | 0 <= i < |lanes| :: !old(lanes[i].State()).CanStart()
    ensures started.Some? ==>
              && from < |lanes| && old(lanes[from].State()).CanStart()
              && started.value == old(lanes[from].pending)[0]
              && lanes[from].State() == Dequeued(old(lanes[from].State()))
              && forall i | 0 <= i < |lanes| && old(lanes[i].State()).CanStart() :: lanes[from].priority <= lanes[i].priority
    ensures forall i | 0 <= i < |lanes| && (started.None? || i != from) :: lanes[i].State() == old(lanes[i].State())
  {
    started, from := None, 0;
    while from < |lanes|
      invariant from <= |lanes|
      invariant forall i | 0 <= i < from :: !old(lanes[i].State()).CanStart()
      invariant forall i | 0 <= i < |lanes| :: lanes[i].State() == old(lanes[i].State())
      invariant started.None?
    {
      started := lanes[from].TryDequeue();
      if started.Some? { return; }
      from := from + 1;
    }
  }

  /** Admission and outstanding work, shared by all lanes. */
  class QueueLifecycle {
    var isShuttingDown: bool
    var outstanding: nat

    constructor ()
      ensures !isShuttingDown && outstanding == 0
    {
      isShuttingDown, outstanding := false, 0;
    }

    method Admit() returns (admitted: bool)
      modifies this`outstanding
      ensures admitted == !isShuttingDown
      ensures outstanding == old(outstanding) + if admitted then 1 else 0
    {
      admitted := !isShuttingDown;
      if admitted { outstanding := outstanding + 1; }
    }

    method BeginShutdown() returns (started: bool)
      modifies this`isShuttingDown
      ensures isShuttingDown && started == !old(isShuttingDown)
    {
      started := !isShuttingDown;
      isShuttingDown := true;
    }

    /** Dropping a work permit; every permit was counted once when it was handed out. */
    method DropPermit()
      requires outstanding > 0
      modifies this`outstanding
      ensures outstanding == old(outstanding) - 1
    {
      outstanding := outstanding - 1;
    }
  }
}
