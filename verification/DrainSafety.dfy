/**
  The lane scheduler over all interleavings of its critical sections: what
  `outstanding` and `active` count, and what an idle queue after shutdown says
  about every command (src/queue.rs).
 */
module DrainSafety {
  import opened Lanes

  type LaneId = string

  /**
    Where a command's wrapper, and with it the work permit, is held: by the
    submitting task, in a lane's pending queue, by a running task, by a retry
    task that sleeps, by a task that has sent the result, or by a task that has
    given up its slot too.
   */
  datatype Phase = Admitted | Queued | Executing | Delayed | Finishing | Dropping

  /** `succeeded` says which result was sent, once one was. */
  datatype Command = Command(lane: LaneId, phase: Phase, attempt: nat, executions: nat, results: nat, succeeded: bool)

  /** `releasing` counts tasks that handed their wrapper to a retry task but still hold a slot. */
  datatype Scheduler = Scheduler(
    lanes: map<LaneId, LaneState>,
    commands: map<CommandId, Command>,
    releasing: multiset<LaneId>,
    outstanding: nat,
    shuttingDown: bool,
    settled: map<CommandId, Command>,
    rejected: set<CommandId>)

  datatype Step =
    | Admit(c: CommandId, lane: LaneId)
    | RejectUnknownLane(c: CommandId)
    | EnqueueCommand(c: CommandId)
    | Start(lane: LaneId)
    | SendResult(c: CommandId, success: bool)
    | ScheduleRetry(c: CommandId)
    | PushDelayed(c: CommandId)
    | MarkDone(c: CommandId)
    | MarkReleased(lane: LaneId)
    | DropPermit(c: CommandId)
    | Shutdown

  predicate InPhase(s: Scheduler, c: CommandId, phase: Phase)
  {
    c in s.commands && s.commands[c].phase == phase
  }

  predicate Known(s: Scheduler, c: CommandId)
    requires c in s.commands
  {
    s.commands[c].lane in s.lanes
  }

  predicate Enabled(s: Scheduler, step: Step)
  {
    match step
    case Admit(c, _) => !s.shuttingDown && c !in s.commands && c !in s.settled && c !in s.rejected
    case RejectUnknownLane(c) => InPhase(s, c, Admitted) && !Known(s, c)
    case EnqueueCommand(c) => InPhase(s, c, Admitted) && Known(s, c)
    case Start(lane) => lane in s.lanes && s.lanes[lane].CanStart() && s.lanes[lane].pending[0] in s.commands
    case SendResult(c, success) =>
      InPhase(s, c, Executing) && Known(s, c) && (success || !MayRetry(s.lanes[s.commands[c].lane], s.commands[c].attempt))
    case ScheduleRetry(c) => InPhase(s, c, Executing) && Known(s, c) && MayRetry(s.lanes[s.commands[c].lane], s.commands[c].attempt)
    case PushDelayed(c) => InPhase(s, c, Delayed) && Known(s, c)
    case MarkDone(c) => InPhase(s, c, Finishing) && Known(s, c)
    case MarkReleased(lane) => lane in s.releasing && lane in s.lanes
    case DropPermit(c) => InPhase(s, c, Dropping)
    case Shutdown => true
  }

  function SetLane(s: Scheduler, id: LaneId, lane: LaneState): Scheduler { s.(lanes := s.lanes[id := lane]) }

  function SetCommand(s: Scheduler, c: CommandId, command: Command): Scheduler { s.(commands := s.commands[c := command]) }

  function Next(s: Scheduler, step: Step): Scheduler
    requires Enabled(s, step)
  {
    match step
    case Admit(c, lane) =>
      SetCommand(s, c, Command(lane, Admitted, 0, 0, 0, false)).(outstanding := s.outstanding + 1)
    case RejectUnknownLane(c) =>
      s.(commands := s.commands - {c}, rejected := s.rejected + {c}, outstanding := SaturatingDecrement(s.outstanding))
    case EnqueueCommand(c) =>
      var command := s.commands[c];
      SetLane(SetCommand(s, c, command.(phase := Queued)), command.lane, Enqueued(s.lanes[command.lane], c))
    case Start(lane) =>
      var c := s.lanes[lane].pending[0];
      var command := s.commands[c];
      SetLane(SetCommand(s, c, command.(phase := Executing, executions := command.executions + 1)), lane, Dequeued(s.lanes[lane]))
    case SendResult(c, success) =>
      SetCommand(s, c, s.commands[c].(phase := Finishing, results := s.commands[c].results + 1, succeeded := success))
    case ScheduleRetry(c) =>
      var command := s.commands[c];
      SetLane(SetCommand(s, c, command.(phase := Delayed, attempt := command.attempt + 1)),
              command.lane, RetryCounted(s.lanes[command.lane])).(releasing := s.releasing + multiset{command.lane})
    case PushDelayed(c) =>
      var command := s.commands[c];
      SetLane(SetCommand(s, c, command.(phase := Queued)), command.lane, RetryPushed(s.lanes[command.lane], c))
    case MarkDone(c) =>
      var command := s.commands[c];
      SetLane(SetCommand(s, c, command.(phase := Dropping)), command.lane, SlotReleased(s.lanes[command.lane]))
    case MarkReleased(lane) =>
      SetLane(s, lane, SlotReleased(s.lanes[lane])).(releasing := s.releasing - multiset{lane})
    case DropPermit(c) =>
      s.(commands := s.commands - {c}, settled := s.settled[c := s.commands[c]], outstanding := SaturatingDecrement(s.outstanding))
    case Shutdown => s.(shuttingDown := true)
  }

  // -- The invariant ---------------------------------------------------------------------------------

  /** Commands of one lane in one phase. */
  function Those(commands: map<CommandId, Command>, lane: LaneId, phase: Phase): set<CommandId>
  {
    set c | c in commands && commands[c].lane == lane && commands[c].phase == phase
  }

  /** Tasks that hold a slot of the lane. */
  function SlotHolders(s: Scheduler, lane: LaneId): nat
  {
    |Those(s.commands, lane, Executing)| + |Those(s.commands, lane, Finishing)| + s.releasing[lane]
  }

  ghost predicate LaneAccounts(s: Scheduler, id: LaneId)
    requires id in s.lanes
  {
    var lane := s.lanes[id];
    && (forall i, j | 0 <= i < j < |lane.pending| :: lane.pending[i] != lane.pending[j])
    && (forall c :: c in lane.pending <==> c in Those(s.commands, id, Queued))
    && lane.active == SlotHolders(s, id)
    && lane.active <= lane.maxConcurrency
    && lane.delayedRetries == |Those(s.commands, id, Delayed)|
  }

  /**
    One result per finished command, one execution per attempt, no attempt
    beyond the retries allowed, and an error only once these are used up.
   */
  ghost predicate CommandAccounts(lanes: map<LaneId, LaneState>, command: Command)
  {
    && (command.phase != Admitted ==> command.lane in lanes)
    && command.results == (if command.phase.Finishing? || command.phase.Dropping? then 1 else 0)
    && (command.phase.Admitted? ==> command.attempt == 0)
    && command.executions == command.attempt
         + (if command.phase.Executing? || command.phase.Finishing? || command.phase.Dropping? then 1 else 0)
    && (command.lane in lanes ==> command.attempt <= lanes[command.lane].maxRetries)
    && (command.lane in lanes && command.results == 1 && !command.succeeded ==> command.attempt == lanes[command.lane].maxRetries)
  }

  /** A command whose permit is gone was answered once, after a bounded number of executions. */
  ghost predicate WellSettled(lanes: map<LaneId, LaneState>, command: Command)
  {
    && command.results == 1
    && command.lane in lanes && 1 <= command.executions <= lanes[command.lane].maxRetries + 1
    && (!command.succeeded ==> command.executions == lanes[command.lane].maxRetries + 1)
  }

  ghost predicate Valid(s: Scheduler)
  {
    && s.outstanding == |s.commands|
    && (forall id | id in s.lanes :: LaneAccounts(s, id))
    && (forall c | c in s.commands :: CommandAccounts(s.lanes, s.commands[c]))
    && (forall c | c in s.settled :: WellSettled(s.lanes, s.settled[c]) && c !in s.commands)
    && (forall id | id in s.releasing :: id in s.lanes)
  }

  predicate IsFreshLane(lane: LaneState) { lane.pending == [] && lane.active == 0 && lane.delayedRetries == 0 }

  function Fresh(lanes: map<LaneId, LaneState>): Scheduler
  {
    Scheduler(lanes, map[], multiset{}, 0, false, map[], {})
  }

  lemma FreshIsValid(lanes: map<LaneId, LaneState>)
    requires forall id | id in lanes :: IsFreshLane(lanes[id])
    ensures Valid(Fresh(lanes))
  {
    forall id | id in lanes ensures LaneAccounts(Fresh(lanes), id) {
      assert IsFreshLane(lanes[id]);
      forall phase ensures Those(map[], id, phase) == {} {}
    }
  }

  // -- Every step keeps it --------------------------------------------------------------------------------

  /** How the census changes when one command is rewritten. */
  lemma CensusUpdate(commands: map<CommandId, Command>, c: CommandId, command: Command, lane: LaneId, phase: Phase)
    ensures Those(commands[c := command], lane, phase)
         == Those(commands, lane, phase) - {c} + (if command.lane == lane && command.phase == phase then {c} else {})
  {
  }

  lemma CensusRemove(commands: map<CommandId, Command>, c: CommandId, lane: LaneId, phase: Phase)
    ensures Those(commands - {c}, lane, phase) == Those(commands, lane, phase) - {c}
  {
  }

  /** A lane whose commands, slots and fields were not touched still balances. */
  lemma Untouched(s: Scheduler, t: Scheduler, id: LaneId)
    requires id in s.lanes && id in t.lanes && t.lanes[id] == s.lanes[id] && LaneAccounts(s, id)
    requires t.releasing[id] == s.releasing[id]
    requires forall phase :: phase != Admitted && phase != Dropping ==> Those(t.commands, id, phase) == Those(s.commands, id, phase)
    ensures LaneAccounts(t, id)
  {
  }

  /** Rewriting a command within its lane leaves the census of every other lane alone. */
  lemma OtherLanes(s: Scheduler, t: Scheduler, c: CommandId, id: LaneId)
    requires c in s.commands && c in t.commands && id in s.lanes && id in t.lanes && id != s.commands[c].lane
    requires t.lanes[id] == s.lanes[id] && t.releasing[id] == s.releasing[id] && LaneAccounts(s, id)
    requires t.commands == s.commands[c := t.commands[c]] && t.commands[c].lane == s.commands[c].lane
    ensures LaneAccounts(t, id)
  {
    forall phase ensures Those(t.commands, id, phase) == Those(s.commands, id, phase) {
      CensusUpdate(s.commands, c, t.commands[c], id, phase);
    }
    Untouched(s, t, id);
  }

  /** The census of the command's own lane after it moved from phase `from` to phase `to`. */
  lemma OwnLane(s: Scheduler, t: Scheduler, c: CommandId, from: Phase, to: Phase)
    requires c in s.commands && s.commands[c].phase == from && from != to
    requires c in t.commands && t.commands == s.commands[c := t.commands[c]]
    requires t.commands[c].lane == s.commands[c].lane && t.commands[c].phase == to
    ensures var id := s.commands[c].lane;
            && (forall phase | phase != from && phase != to :: Those(t.commands, id, phase) == Those(s.commands, id, phase))
            && Those(t.commands, id, from) == Those(s.commands, id, from) - {c}
            && Those(t.commands, id, to) == Those(s.commands, id, to) + {c}
            && c in Those(s.commands, id, from) && c !in Those(s.commands, id, to)
  {
    var id := s.commands[c].lane;
    forall phase ensures Those(t.commands, id, phase) == Those(s.commands, id, phase) - {c} + (if to == phase then {c} else {}) {
      CensusUpdate(s.commands, c, t.commands[c], id, phase);
    }
  }

  function One(yes: bool): nat { if yes then 1 else 0 }

  predicate HoldsSlot(phase: Phase) { phase == Executing || phase == Finishing }

  /** The lane's books move with the command. */
  predicate Rebooked(before: LaneState, after: LaneState, releasedBefore: nat, releasedAfter: nat, from: Phase, to: Phase)
  {
    && after.maxConcurrency == before.maxConcurrency && after.active <= after.maxConcurrency
    && after.active + One(HoldsSlot(from)) + releasedBefore == before.active + One(HoldsSlot(to)) + releasedAfter
    && after.delayedRetries + One(from == Delayed) == before.delayedRetries + One(to == Delayed)
  }

  ghost predicate Requeued(before: seq<CommandId>, after: seq<CommandId>, c: CommandId, from: Phase, to: Phase)
  {
    && (forall i, j | 0 <= i < j < |after| :: after[i] != after[j])
    && (forall x | x != c :: x in after <==> x in before)
    && (c in after <==> to == Queued)
  }

  /** Then the lane still balances. */
  lemma MovedLaneBalances(s: Scheduler, t: Scheduler, c: CommandId, from: Phase, to: Phase)
    requires c in s.commands && s.commands[c].phase == from && from != to
    requires c in t.commands && t.commands == s.commands[c := t.commands[c]]
    requires t.commands[c].lane == s.commands[c].lane && t.commands[c].phase == to
    requires var id := s.commands[c].lane;
             && id in s.lanes && id in t.lanes && LaneAccounts(s, id)
             && Requeued(s.lanes[id].pending, t.lanes[id].pending, c, from, to)
             && Rebooked(s.lanes[id], t.lanes[id], s.releasing[id], t.releasing[id], from, to)
    ensures LaneAccounts(t, s.commands[c].lane)
  {
    MovedQueue(s, t, c, from, to);
    OwnCount(s, t, c, from, to, Executing);
    OwnCount(s, t, c, from, to, Finishing);
    OwnCount(s, t, c, from, to, Delayed);
  }

  lemma MovedQueue(s: Scheduler, t: Scheduler, c: CommandId, from: Phase, to: Phase)
    requires c in s.commands && s.commands[c].phase == from && from != to
    requires c in t.commands && t.commands == s.commands[c := t.commands[c]]
    requires t.commands[c].lane == s.commands[c].lane && t.commands[c].phase == to
    requires var id := s.commands[c].lane;
             && id in s.lanes && id in t.lanes && LaneAccounts(s, id)
             && Requeued(s.lanes[id].pending, t.lanes[id].pending, c, from, to)
    ensures var id := s.commands[c].lane; forall x :: x in t.lanes[id].pending <==> x in Those(t.commands, id, Queued)
  {
    CensusUpdate(s.commands, c, t.commands[c], s.commands[c].lane, Queued);
  }

  lemma OwnCount(s: Scheduler, t: Scheduler, c: CommandId, from: Phase, to: Phase, phase: Phase)
    requires c in s.commands && s.commands[c].phase == from && from != to
    requires c in t.commands && t.commands == s.commands[c := t.commands[c]]
    requires t.commands[c].lane == s.commands[c].lane && t.commands[c].phase == to
    ensures var id := s.commands[c].lane;
            |Those(t.commands, id, phase)| + One(phase == from) == |Those(s.commands, id, phase)| + One(phase == to)
  {
    OwnLane(s, t, c, from, to);
  }

  /** What every move of one command inside a known lane needs to re-establish. */
  lemma MoveKeepsValid(s: Scheduler, t: Scheduler, c: CommandId)
    requires Valid(s) && c in s.commands && Known(s, c) && c in t.commands
    requires t.commands == s.commands[c := t.commands[c]] && t.commands[c].lane == s.commands[c].lane
    requires t.lanes.Keys == s.lanes.Keys
    requires forall id | id in s.lanes :: t.lanes[id].maxRetries == s.lanes[id].maxRetries
    requires forall id | id in s.lanes && id != s.commands[c].lane :: t.lanes[id] == s.lanes[id] && t.releasing[id] == s.releasing[id]
    requires LaneAccounts(t, s.commands[c].lane) && CommandAccounts(t.lanes, t.commands[c])
    requires t.outstanding == s.outstanding && t.settled == s.settled
    requires forall id | id in t.releasing :: id in s.lanes
    ensures Valid(t)
  {
    assert t.commands.Keys == s.commands.Keys;
    forall id | id in t.lanes ensures LaneAccounts(t, id) {
      if id != s.commands[c].lane { OtherLanes(s, t, c, id); }
    }
    forall x | x in t.commands ensures CommandAccounts(t.lanes, t.commands[x]) {
      if x != c { assert CommandAccounts(s.lanes, s.commands[x]); }
    }
    forall x | x in t.settled ensures WellSettled(t.lanes, t.settled[x]) && x !in t.commands {
      assert WellSettled(s.lanes, s.settled[x]);
    }
  }

  /** A command that moved on, with its lane's queue and books moved along. */
  lemma BookedMoveKeepsValid(s: Scheduler, t: Scheduler, c: CommandId, from: Phase, to: Phase)
    requires Valid(s) && c in s.commands && Known(s, c) && s.commands[c].phase == from && from != to
    requires c in t.commands && t.commands == s.commands[c := t.commands[c]]
    requires t.commands[c].lane == s.commands[c].lane && t.commands[c].phase == to
    requires t.lanes.Keys == s.lanes.Keys
    requires forall id | id in s.lanes :: t.lanes[id].maxRetries == s.lanes[id].maxRetries
    requires forall id | id in s.lanes && id != s.commands[c].lane :: t.lanes[id] == s.lanes[id] && t.releasing[id] == s.releasing[id]
    requires var id := s.commands[c].lane;
             && Requeued(s.lanes[id].pending, t.lanes[id].pending, c, from, to)
             && Rebooked(s.lanes[id], t.lanes[id], s.releasing[id], t.releasing[id], from, to)
    requires CommandAccounts(t.lanes, t.commands[c])
    requires t.outstanding == s.outstanding && t.settled == s.settled
    requires forall id | id in t.releasing :: id in s.lanes
    ensures Valid(t)
  {
    MovedLaneBalances(s, t, c, from, to);
    MoveKeepsValid(s, t, c);
  }

  /** An admitted command is in no lane's books yet. */
  lemma AdmittedUnseen(s: Scheduler, t: Scheduler, c: CommandId, id: LaneId)
    requires c !in s.commands && c in t.commands && t.commands == s.commands[c := t.commands[c]] && t.commands[c].phase == Admitted
    requires id in s.lanes && t.lanes == s.lanes && t.releasing == s.releasing && LaneAccounts(s, id)
    ensures LaneAccounts(t, id)
  {
    forall phase | phase != Admitted ensures Those(t.commands, id, phase) == Those(s.commands, id, phase) {
      CensusUpdate(s.commands, c, t.commands[c], id, phase);
    }
    Untouched(s, t, id);
  }

  lemma MapGrows(commands: map<CommandId, Command>, c: CommandId, command: Command)
    requires c !in commands
    ensures |commands[c := command]| == |commands| + 1
  {
    var more := commands[c := command];
    assert more.Keys == commands.Keys + {c};
    assert |more.Keys| == |more| && |commands.Keys| == |commands|;
  }

  lemma AdmitKeepsValid(s: Scheduler, c: CommandId, lane: LaneId)
    requires Valid(s) && Enabled(s, Admit(c, lane))
    ensures Valid(Next(s, Admit(c, lane)))
  {
    var t := Next(s, Admit(c, lane));
    MapGrows(s.commands, c, Command(lane, Admitted, 0, 0, 0, false));
    assert t.commands == s.commands[c := Command(lane, Admitted, 0, 0, 0, false)];
    forall id | id in t.lanes ensures LaneAccounts(t, id) { AdmittedUnseen(s, t, c, id); }
    AdmittedCommands(s, t, c);
  }

  lemma AdmittedCommands(s: Scheduler, t: Scheduler, c: CommandId)
    requires c !in s.commands && c in t.commands && t.commands == s.commands[c := t.commands[c]] && t.lanes == s.lanes
    requires CommandAccounts(s.lanes, t.commands[c])
    requires forall x | x in s.commands :: CommandAccounts(s.lanes, s.commands[x])
    ensures forall x | x in t.commands :: CommandAccounts(t.lanes, t.commands[x])
  {
    forall x | x in t.commands ensures CommandAccounts(t.lanes, t.commands[x]) {
      if x != c { assert CommandAccounts(s.lanes, s.commands[x]); }
    }
  }

  /** A command leaves the books for good: rejected on admission, or settled. */
  lemma LeaveKeepsLanes(s: Scheduler, t: Scheduler, c: CommandId)
    requires Valid(s) && c in s.commands && (s.commands[c].phase == Admitted || s.commands[c].phase == Dropping)
    requires t.commands == s.commands - {c} && t.lanes == s.lanes && t.releasing == s.releasing
    ensures |t.commands| == |s.commands| - 1
    ensures forall id | id in t.lanes :: LaneAccounts(t, id)
    ensures forall x | x in t.commands :: CommandAccounts(t.lanes, t.commands[x])
  {
    assert t.commands.Keys == s.commands.Keys - {c};
    assert |t.commands.Keys| == |t.commands| && |s.commands.Keys| == |s.commands|;
    forall id | id in t.lanes ensures LaneAccounts(t, id) {
      forall phase | phase != Admitted && phase != Dropping ensures Those(t.commands, id, phase) == Those(s.commands, id, phase) {
        CensusRemove(s.commands, c, id, phase);
      }
      Untouched(s, t, id);
    }
    forall x | x in t.commands ensures CommandAccounts(t.lanes, t.commands[x]) { assert CommandAccounts(s.lanes, s.commands[x]); }
  }

  lemma RejectKeepsValid(s: Scheduler, c: CommandId)
    requires Valid(s) && Enabled(s, RejectUnknownLane(c))
    ensures Valid(Next(s, RejectUnknownLane(c)))
  {
    LeaveKeepsLanes(s, Next(s, RejectUnknownLane(c)), c);
  }

  lemma DropKeepsValid(s: Scheduler, c: CommandId)
    requires Valid(s) && Enabled(s, DropPermit(c))
    ensures Valid(Next(s, DropPermit(c)))
  {
    var t := Next(s, DropPermit(c));
    LeaveKeepsLanes(s, t, c);
    assert CommandAccounts(s.lanes, s.commands[c]);
    forall x | x in t.settled ensures WellSettled(t.lanes, t.settled[x]) && x !in t.commands {
      if x != c { assert WellSettled(s.lanes, s.settled[x]); }
    }
  }

  lemma AppendRequeues(pending: seq<CommandId>, c: CommandId, from: Phase)
    requires c !in pending && forall i, j | 0 <= i < j < |pending| :: pending[i] != pending[j]
    ensures Requeued(pending, pending + [c], c, from, Queued)
  {
  }

  /** A phase that some command is in is counted. */
  lemma Counted(s: Scheduler, c: CommandId)
    requires c in s.commands
    ensures |Those(s.commands, s.commands[c].lane, s.commands[c].phase)| >= 1
  {
    assert c in Those(s.commands, s.commands[c].lane, s.commands[c].phase);
  }

  /** A command outside the queue phase is in no queue. */
  lemma NotQueued(s: Scheduler, c: CommandId)
    requires Valid(s) && c in s.commands && Known(s, c) && s.commands[c].phase != Queued
    ensures var lane := s.lanes[s.commands[c].lane];
            && c !in lane.pending && lane.active <= lane.maxConcurrency
            && forall i, j | 0 <= i < j < |lane.pending| :: lane.pending[i] != lane.pending[j]
  {
    assert LaneAccounts(s, s.commands[c].lane);
    assert c !in Those(s.commands, s.commands[c].lane, Queued);
  }

  /** A command appended to its lane's queue. */
  lemma AppendedKeepsValid(s: Scheduler, t: Scheduler, c: CommandId, from: Phase)
    requires Valid(s) && c in s.commands && Known(s, c) && s.commands[c].phase == from && from != Queued
    requires t == s.(commands := s.commands[c := s.commands[c].(phase := Queued)], lanes := t.lanes)
    requires var id := s.commands[c].lane;
             && id in t.lanes && t.lanes == s.lanes[id := t.lanes[id]] && t.lanes[id].maxRetries == s.lanes[id].maxRetries
             && t.lanes[id].pending == s.lanes[id].pending + [c]
             && Rebooked(s.lanes[id], t.lanes[id], s.releasing[id], t.releasing[id], from, Queued)
    requires CommandAccounts(t.lanes, t.commands[c])
    ensures Valid(t)
  {
    NotQueued(s, c);
    AppendRequeues(s.lanes[s.commands[c].lane].pending, c, from);
    BookedMoveKeepsValid(s, t, c, from, Queued);
  }

  lemma EnqueueKeepsValid(s: Scheduler, c: CommandId)
    requires Valid(s) && Enabled(s, EnqueueCommand(c))
    ensures Valid(Next(s, EnqueueCommand(c)))
  {
    NotQueued(s, c);
    assert CommandAccounts(s.lanes, s.commands[c]);
    AppendedKeepsValid(s, Next(s, EnqueueCommand(c)), c, Admitted);
  }

  lemma PushDelayedKeepsValid(s: Scheduler, c: CommandId)
    requires Valid(s) && Enabled(s, PushDelayed(c))
    ensures Valid(Next(s, PushDelayed(c)))
    ensures s.lanes[s.commands[c].lane].delayedRetries > 0
  {
    assert CommandAccounts(s.lanes, s.commands[c]) && LaneAccounts(s, s.commands[c].lane);
    Counted(s, c);
    AppendedKeepsValid(s, Next(s, PushDelayed(c)), c, Delayed);
  }

  lemma RestOfQueue(pending: seq<CommandId>)
    requires pending != [] && forall i, j | 0 <= i < j < |pending| :: pending[i] != pending[j]
    ensures forall x :: x in pending[1..] <==> x in pending && x != pending[0]
  {
    forall x ensures x in pending[1..] <==> x in pending && x != pending[0] {
      if x in pending && x != pending[0] { var i :| 0 <= i < |pending| && pending[i] == x; assert pending[1..][i - 1] == x; }
    }
  }

  ghost predicate IsStarted(s: Scheduler, t: Scheduler, id: LaneId, c: CommandId)
    requires id in s.lanes && s.lanes[id].CanStart() && c in s.commands
  {
    && t.commands == s.commands[c := s.commands[c].(phase := Executing, executions := s.commands[c].executions + 1)]
    && t.lanes == s.lanes[id := Dequeued(s.lanes[id])]
    && t.releasing == s.releasing && t.outstanding == s.outstanding && t.settled == s.settled
  }

  lemma StartStarts(s: Scheduler, id: LaneId)
    requires Enabled(s, Start(id))
    ensures id in s.lanes && s.lanes[id].CanStart() && s.lanes[id].pending[0] in s.commands
    ensures IsStarted(s, Next(s, Start(id)), id, s.lanes[id].pending[0])
  {
  }

  lemma StartedKeepsValid(s: Scheduler, t: Scheduler, id: LaneId, c: CommandId)
    requires Valid(s) && id in s.lanes && s.lanes[id].CanStart() && c == s.lanes[id].pending[0] && c in s.commands
    requires IsStarted(s, t, id, c)
    ensures Valid(t)
  {
    FrontIsQueued(s, id, c);
    RestOfQueue(s.lanes[id].pending);
    assert CommandAccounts(s.lanes, s.commands[c]);
    BookedMoveKeepsValid(s, t, c, Queued, Executing);
  }

  lemma FrontIsQueued(s: Scheduler, id: LaneId, c: CommandId)
    requires Valid(s) && id in s.lanes && s.lanes[id].pending != [] && c == s.lanes[id].pending[0]
    ensures c in s.commands && s.commands[c].lane == id && s.commands[c].phase == Queued
    ensures forall i, j | 0 <= i < j < |s.lanes[id].pending| :: s.lanes[id].pending[i] != s.lanes[id].pending[j]
  {
    assert LaneAccounts(s, id);
    assert c in Those(s.commands, id, Queued);
  }

  lemma StartKeepsValid(s: Scheduler, id: LaneId)
    requires Valid(s) && Enabled(s, Start(id))
    ensures Valid(Next(s, Start(id)))
  {
    StartStarts(s, id);
    StartedKeepsValid(s, Next(s, Start(id)), id, s.lanes[id].pending[0]);
  }

  lemma SendResultKeepsValid(s: Scheduler, c: CommandId, success: bool)
    requires Valid(s) && Enabled(s, SendResult(c, success))
    ensures Valid(Next(s, SendResult(c, success)))
  {
    var t := Next(s, SendResult(c, success));
    assert CommandAccounts(s.lanes, s.commands[c]);
    NotQueued(s, c);
    BookedMoveKeepsValid(s, t, c, Executing, Finishing);
  }

  lemma RetriedKeepsValid(s: Scheduler, t: Scheduler, c: CommandId)
    requires Valid(s) && c in s.commands && Known(s, c) && s.commands[c].phase == Executing && IsRetried(s, t, c)
    ensures Valid(t)
  {
    RetriedBooks(s, t, c);
    RetriedAccounts(s, t, c);
    BookedMoveKeepsValid(s, t, c, Executing, Delayed);
  }

  lemma RetriedBooks(s: Scheduler, t: Scheduler, c: CommandId)
    requires Valid(s) && c in s.commands && Known(s, c) && s.commands[c].phase == Executing && IsRetried(s, t, c)
    ensures var id := s.commands[c].lane;
            && Requeued(s.lanes[id].pending, t.lanes[id].pending, c, Executing, Delayed)
            && Rebooked(s.lanes[id], t.lanes[id], s.releasing[id], t.releasing[id], Executing, Delayed)
  {
    NotQueued(s, c);
  }

  lemma RetriedAccounts(s: Scheduler, t: Scheduler, c: CommandId)
    requires Valid(s) && c in s.commands && Known(s, c) && s.commands[c].phase == Executing && IsRetried(s, t, c)
    ensures CommandAccounts(t.lanes, t.commands[c])
  {
    assert CommandAccounts(s.lanes, s.commands[c]);
  }

  ghost predicate IsRetried(s: Scheduler, t: Scheduler, c: CommandId)
    requires c in s.commands && Known(s, c)
  {
    var command, id := s.commands[c], s.commands[c].lane;
    && command.attempt < s.lanes[id].maxRetries
    && t.commands == s.commands[c := command.(phase := Delayed, attempt := command.attempt + 1)]
    && t.lanes == s.lanes[id := RetryCounted(s.lanes[id])]
    && t.releasing == s.releasing + multiset{id} && t.outstanding == s.outstanding && t.settled == s.settled
  }

  lemma ScheduleRetryRetries(s: Scheduler, c: CommandId)
    requires Enabled(s, ScheduleRetry(c))
    ensures c in s.commands && Known(s, c) && s.commands[c].phase == Executing && IsRetried(s, Next(s, ScheduleRetry(c)), c)
  {
  }

  lemma ScheduleRetryKeepsValid(s: Scheduler, c: CommandId)
    requires Valid(s) && Enabled(s, ScheduleRetry(c))
    ensures Valid(Next(s, ScheduleRetry(c)))
  {
    ScheduleRetryRetries(s, c);
    RetriedKeepsValid(s, Next(s, ScheduleRetry(c)), c);
  }

  lemma MarkDoneKeepsValid(s: Scheduler, c: CommandId)
    requires Valid(s) && Enabled(s, MarkDone(c))
    ensures Valid(Next(s, MarkDone(c)))
    ensures s.lanes[s.commands[c].lane].active > 0
  {
    var t := Next(s, MarkDone(c));
    var id := s.commands[c].lane;
    assert CommandAccounts(s.lanes, s.commands[c]) && LaneAccounts(s, id);
    Counted(s, c);
    NotQueued(s, c);
    BookedMoveKeepsValid(s, t, c, Finishing, Dropping);
  }

  lemma ReleasedLaneBalances(s: Scheduler, t: Scheduler, id: LaneId)
    requires id in s.lanes && id in s.releasing && LaneAccounts(s, id)
    requires t == SetLane(s, id, SlotReleased(s.lanes[id])).(releasing := s.releasing - multiset{id})
    ensures s.lanes[id].active > 0 && LaneAccounts(t, id)
  {
    assert SlotHolders(t, id) == SlotHolders(s, id) - 1;
  }

  lemma OtherLanesBalance(s: Scheduler, t: Scheduler, id: LaneId)
    requires t.commands == s.commands && t.lanes.Keys == s.lanes.Keys
    requires forall other | other in s.lanes && other != id ::
               LaneAccounts(s, other) && t.lanes[other] == s.lanes[other] && t.releasing[other] == s.releasing[other]
    ensures forall other | other in t.lanes && other != id :: LaneAccounts(t, other)
  {
    forall other | other in t.lanes && other != id ensures LaneAccounts(t, other) { Untouched(s, t, other); }
  }

  lemma ReleasedSlotKeepsValid(s: Scheduler, t: Scheduler, id: LaneId)
    requires Valid(s) && id in s.lanes && id in s.releasing
    requires t == SetLane(s, id, SlotReleased(s.lanes[id])).(releasing := s.releasing - multiset{id})
    ensures Valid(t) && s.lanes[id].active > 0
  {
    ReleasedLaneBalances(s, t, id);
    OtherLanesBalance(s, t, id);
    SameBooks(s, t);
  }

  lemma MarkReleasedKeepsValid(s: Scheduler, id: LaneId)
    requires Valid(s) && Enabled(s, MarkReleased(id))
    ensures Valid(Next(s, MarkReleased(id)))
    ensures s.lanes[id].active > 0
  {
    ReleasedSlotKeepsValid(s, Next(s, MarkReleased(id)), id);
  }

  lemma SameBooks(s: Scheduler, t: Scheduler)
    requires t.commands == s.commands && t.settled == s.settled && t.lanes.Keys == s.lanes.Keys
    requires forall id | id in s.lanes :: t.lanes[id].maxRetries == s.lanes[id].maxRetries
    requires forall c | c in s.commands :: CommandAccounts(s.lanes, s.commands[c])
    requires forall c | c in s.settled :: WellSettled(s.lanes, s.settled[c]) && c !in s.commands
    ensures forall c | c in t.commands :: CommandAccounts(t.lanes, t.commands[c])
    ensures forall c | c in t.settled :: WellSettled(t.lanes, t.settled[c]) && c !in t.commands
  {
    forall c | c in t.commands ensures CommandAccounts(t.lanes, t.commands[c]) { assert CommandAccounts(s.lanes, s.commands[c]); }
    forall x | x in t.settled ensures WellSettled(t.lanes, t.settled[x]) && x !in t.commands { assert WellSettled(s.lanes, s.settled[x]); }
  }

  /**
    Whatever step comes next: `outstanding` counts the commands that still hold
    a permit, `active` the tasks that hold a slot, never more than allowed.
   */
  lemma StepKeepsValid(s: Scheduler, step: Step)
    requires Valid(s) && Enabled(s, step)
    ensures Valid(Next(s, step))
  {
    match step
    case Admit(c, lane) => AdmitKeepsValid(s, c, lane);
    case RejectUnknownLane(c) => RejectKeepsValid(s, c);
    case EnqueueCommand(c) => EnqueueKeepsValid(s, c);
    case Start(lane) => StartKeepsValid(s, lane);
    case SendResult(c, success) => SendResultKeepsValid(s, c, success);
    case ScheduleRetry(c) => ScheduleRetryKeepsValid(s, c);
    case PushDelayed(c) => PushDelayedKeepsValid(s, c);
    case MarkDone(c) => MarkDoneKeepsValid(s, c);
    case MarkReleased(lane) => MarkReleasedKeepsValid(s, lane);
    case DropPermit(c) => DropKeepsValid(s, c);
    case Shutdown =>
      var t := Next(s, Shutdown);
      forall id | id in t.lanes ensures LaneAccounts(t, id) { Untouched(s, t, id); }
  }

  // -- Runs ---------------------------------------------------------------------------------------------------

  /** `trace` is a run: each state but the first follows from the one before by some enabled step. */
  ghost predicate IsRun(trace: seq<Scheduler>, steps: seq<Step>)
  {
    && |trace| == |steps| + 1
    && forall k {:trigger steps[k]} | 0 <= k < |steps| :: Enabled(trace[k], steps[k]) && trace[k + 1] == Next(trace[k], steps[k])
  }

  lemma {:induction false} RunKeepsValid(trace: seq<Scheduler>, steps: seq<Step>, k: nat)
    requires k < |trace| && IsRun(trace, steps) && Valid(trace[0])
    ensures Valid(trace[k])
  {
    if k > 0 {
      RunKeepsValid(trace, steps, k - 1);
      StepKeepsValid(trace[k - 1], steps[k - 1]);
    }
  }

  /** Every command ever admitted is held, settled or was refused its lane. */
  ghost predicate Accounted(s: Scheduler, c: CommandId)
  {
    c in s.commands || c in s.settled || c in s.rejected
  }

  /** The command's submission found no such lane. */
  predicate WasRejected(steps: seq<Step>, c: CommandId) { RejectUnknownLane(c) in steps }

  lemma StepAccounts(s: Scheduler, step: Step, c: CommandId)
    requires Enabled(s, step) && Accounted(s, c)
    ensures Accounted(Next(s, step), c)
    ensures c !in s.rejected && c in Next(s, step).rejected ==> step == RejectUnknownLane(c)
  {
  }

  lemma TraceStepAccounts(trace: seq<Scheduler>, steps: seq<Step>, k: nat, c: CommandId)
    requires k + 1 < |trace| && IsRun(trace, steps) && Accounted(trace[k], c)
    ensures Accounted(trace[k + 1], c)
    ensures c !in trace[k].rejected && c in trace[k + 1].rejected ==> steps[k] == RejectUnknownLane(c)
  {
    StepAccounts(trace[k], steps[k], c);
  }

  lemma {:induction false} AdmittedStaysAccounted(trace: seq<Scheduler>, steps: seq<Step>, from: nat, until: nat, c: CommandId)
    requires from <= until < |trace| && IsRun(trace, steps) && Accounted(trace[from], c)
    ensures Accounted(trace[until], c)
    ensures c !in trace[from].rejected && c in trace[until].rejected ==> WasRejected(steps[from..until], c)
    decreases until - from
  {
    if from < until {
      var k := until - 1;
      AdmittedStaysAccounted(trace, steps, from, k, c);
      TraceStepAccounts(trace, steps, k, c);
      assert steps[from..until] == steps[from..k] + [steps[k]];
    }
  }

  lemma ShutdownAdmitsNothing(s: Scheduler, step: Step)
    requires Enabled(s, step) && s.shuttingDown
    ensures Next(s, step).shuttingDown && Next(s, step).outstanding <= s.outstanding
  {
  }

  lemma {:induction false} ShutdownIsFinal(trace: seq<Scheduler>, steps: seq<Step>, from: nat, until: nat)
    requires from <= until < |trace| && IsRun(trace, steps) && trace[from].shuttingDown
    ensures trace[until].shuttingDown && trace[until].outstanding <= trace[from].outstanding
    decreases until - from
  {
    if from < until {
      ShutdownIsFinal(trace, steps, from, until - 1);
      ShutdownAdmitsNothing(trace[until - 1], steps[until - 1]);
      assert trace[until] == Next(trace[until - 1], steps[until - 1]);
    }
  }

  /**
    Drain safety: once a queue that is shutting down has nothing outstanding, it
    stays so, and every command that was ever admitted to a known lane has been
    sent exactly one result, after at least one and at most `maxRetries + 1`
    executions.
   */
  lemma DrainedMeansAnswered(trace: seq<Scheduler>, steps: seq<Step>, admitted: nat, drained: nat, later: nat, c: CommandId)
    requires admitted <= drained <= later < |trace| && IsRun(trace, steps) && Valid(trace[0])
    requires Accounted(trace[admitted], c) && c !in trace[later].rejected
    requires trace[drained].shuttingDown && trace[drained].outstanding == 0
    ensures trace[later].outstanding == 0
    ensures c in trace[later].settled && WellSettled(trace[later].lanes, trace[later].settled[c])
  {
    RunKeepsValid(trace, steps, later);
    ShutdownIsFinal(trace, steps, drained, later);
    AdmittedStaysAccounted(trace, steps, admitted, later, c);
    assert trace[later].commands == map[];
  }

  /** An executing command that fails is retried exactly while it was retried less often than its lane allows. */
  lemma RetryDecision(s: Scheduler, c: CommandId)
    requires InPhase(s, c, Executing) && Known(s, c)
    ensures Enabled(s, SendResult(c, true))
    ensures Enabled(s, ScheduleRetry(c)) <==> s.commands[c].attempt < s.lanes[s.commands[c].lane].maxRetries
    ensures Enabled(s, SendResult(c, false)) <==> s.commands[c].attempt >= s.lanes[s.commands[c].lane].maxRetries
  {
  }

  /** Whatever the interleaving, a settled command whose caller was sent an error was executed the first time and at every retry allowed. */
  lemma ErrorMeansExhausted(lanes: map<LaneId, LaneState>, trace: seq<Scheduler>, steps: seq<Step>, k: nat, c: CommandId)
    requires (forall id | id in lanes :: IsFreshLane(lanes[id])) && IsRun(trace, steps) && trace[0] == Fresh(lanes)
    requires k < |trace| && c in trace[k].settled && !trace[k].settled[c].succeeded
    ensures var command := trace[k].settled[c];
            && command.lane in trace[k].lanes && command.results == 1
            && command.executions == trace[k].lanes[command.lane].maxRetries + 1
  {
    FreshIsValid(lanes);
    RunKeepsValid(trace, steps, k);
    assert WellSettled(trace[k].lanes, trace[k].settled[c]);
  }

  // -- First come, first started ---------------------------------------------------------------------------

  /** `a` is queued ahead of `b`. */
  ghost predicate IsAhead(pending: seq<CommandId>, a: CommandId, b: CommandId)
  {
    exists i, j :: 0 <= i < j < |pending| && pending[i] == a && pending[j] == b
  }

  ghost predicate QueuedAhead(s: Scheduler, id: LaneId, a: CommandId, b: CommandId)
  {
    id in s.lanes && IsAhead(s.lanes[id].pending, a, b)
  }

  /** The step takes `a` from the front of the lane's queue and leaves `b` in it. */
  ghost predicate StartsAhead(s: Scheduler, step: Step, id: LaneId, a: CommandId, b: CommandId)
  {
    && step == Start(id) && id in s.lanes && s.lanes[id].pending != [] && s.lanes[id].pending[0] == a
    && b in s.lanes[id].pending[1..]
  }

  lemma AppendingKeepsAhead(pending: seq<CommandId>, more: seq<CommandId>, a: CommandId, b: CommandId)
    requires IsAhead(pending, a, b)
    ensures IsAhead(pending + more, a, b)
  {
    var i, j :| 0 <= i < j < |pending| && pending[i] == a && pending[j] == b;
    assert (pending + more)[i] == a && (pending + more)[j] == b;
  }

  lemma FrontLeaves(pending: seq<CommandId>, a: CommandId, b: CommandId)
    requires IsAhead(pending, a, b)
    ensures b in pending[1..]
    ensures pending[0] == a || IsAhead(pending[1..], a, b)
  {
    var i, j :| 0 <= i < j < |pending| && pending[i] == a && pending[j] == b;
    assert pending[1..][j - 1] == b;
    if i > 0 { assert pending[1..][i - 1] == a; }
  }

  lemma StepKeepsLaneOrder(s: Scheduler, step: Step, id: LaneId, a: CommandId, b: CommandId)
    requires Enabled(s, step) && QueuedAhead(s, id, a, b)
    ensures QueuedAhead(Next(s, step), id, a, b) || StartsAhead(s, step, id, a, b)
  {
    match step
    case Start(lane) => FrontLeaves(s.lanes[id].pending, a, b);
    case EnqueueCommand(c) => AppendingKeepsAhead(s.lanes[id].pending, [c], a, b);
    case PushDelayed(c) => AppendingKeepsAhead(s.lanes[id].pending, [c], a, b);
    case _ =>
  }

  /** That is what step `k` of the run does. */
  ghost predicate StartsAheadAt(trace: seq<Scheduler>, steps: seq<Step>, k: int, id: LaneId, a: CommandId, b: CommandId)
  {
    0 <= k < |steps| && k < |trace| && StartsAhead(trace[k], steps[k], id, a, b)
  }

  lemma TraceKeepsLaneOrder(trace: seq<Scheduler>, steps: seq<Step>, k: nat, id: LaneId, a: CommandId, b: CommandId)
    requires k + 1 < |trace| && IsRun(trace, steps) && QueuedAhead(trace[k], id, a, b)
    ensures QueuedAhead(trace[k + 1], id, a, b) || StartsAheadAt(trace, steps, k, id, a, b)
  {
    StepKeepsLaneOrder(trace[k], steps[k], id, a, b);
  }

  /** Of two commands queued in a lane, the one ahead is started while the other still waits, or both still wait in that order. */
  lemma {:induction false} LaneIsFifo(trace: seq<Scheduler>, steps: seq<Step>, from: nat, until: nat, id: LaneId, a: CommandId, b: CommandId)
    requires from <= until < |trace| && IsRun(trace, steps) && QueuedAhead(trace[from], id, a, b)
    ensures QueuedAhead(trace[until], id, a, b) || exists k :: from <= k < until && StartsAheadAt(trace, steps, k, id, a, b)
    decreases until - from
  {
    if from < until {
      LaneIsFifo(trace, steps, from, until - 1, id, a, b);
      if QueuedAhead(trace[until - 1], id, a, b) { TraceKeepsLaneOrder(trace, steps, until - 1, id, a, b); }
    }
  }

  /** A lane is idle exactly when no command of it is queued, running, asleep before a retry or finishing, and no slot is still to be given back. */
  lemma IdleIff(s: Scheduler, id: LaneId)
    requires Valid(s) && id in s.lanes
    ensures s.lanes[id].IsIdle()
       <==> id !in s.releasing && forall c | c in s.commands && s.commands[c].lane == id :: s.commands[c].phase == Admitted || s.commands[c].phase == Dropping
  {
    assert LaneAccounts(s, id);
    EmptyOrNot(s.lanes[id].pending);
    forall phase ensures |Those(s.commands, id, phase)| == 0 <==> forall c :: c !in Those(s.commands, id, phase) {
      NoneOrSome(Those(s.commands, id, phase));
    }
    if forall c | c in s.commands && s.commands[c].lane == id :: s.commands[c].phase == Admitted || s.commands[c].phase == Dropping {
      forall phase | phase != Admitted && phase != Dropping ensures Those(s.commands, id, phase) == {} {}
    } else {
      var c :| c in s.commands && s.commands[c].lane == id && s.commands[c].phase != Admitted && s.commands[c].phase != Dropping;
      assert c in Those(s.commands, id, s.commands[c].phase);
    }
  }

  lemma NoneOrSome(those: set<CommandId>)
    ensures |those| == 0 <==> forall c :: c !in those
  {
    if |those| != 0 { var c :| c in those; }
  }

  lemma EmptyOrNot(pending: seq<CommandId>)
    ensures pending == [] || exists c :: c in pending
  {
    if pending != [] { assert pending[0] in pending; }
  }

  /** A drained lane has nothing queued and nothing delayed. */
  lemma DrainedLaneIsEmpty(s: Scheduler, id: LaneId)
    requires Valid(s) && s.outstanding == 0 && id in s.lanes
    ensures s.commands == map[]
    ensures s.lanes[id].pending == [] && s.lanes[id].delayedRetries == 0 && s.lanes[id].active == s.releasing[id]
  {
    assert LaneAccounts(s, id);
    forall phase ensures Those(s.commands, id, phase) == {} {}
    EmptyOrNot(s.lanes[id].pending);
  }

  /** After the drain only slots of handed-over retries are still given back. */
  lemma DrainedStep(s: Scheduler, step: Step, id: LaneId)
    requires Valid(s) && Enabled(s, step) && s.shuttingDown && s.outstanding == 0 && id in s.lanes
    ensures id in Next(s, step).lanes && Next(s, step).lanes[id].active <= s.lanes[id].active
  {
    DrainedLaneIsEmpty(s, id);
  }

  lemma DrainedMoment(trace: seq<Scheduler>, steps: seq<Step>, k: nat, id: LaneId)
    requires k + 1 < |trace| && IsRun(trace, steps) && Valid(trace[0])
    requires trace[k].shuttingDown && trace[k].outstanding == 0 && id in trace[k].lanes
    ensures id in trace[k + 1].lanes && trace[k + 1].lanes[id].active <= trace[k].lanes[id].active
    ensures trace[k + 1].shuttingDown && trace[k + 1].outstanding == 0
  {
    RunKeepsValid(trace, steps, k);
    DrainedStep(trace[k], steps[k], id);
    ShutdownAdmitsNothing(trace[k], steps[k]);
  }

  lemma {:induction false} DrainedLanesWindDown(trace: seq<Scheduler>, steps: seq<Step>, from: nat, until: nat, id: LaneId)
    requires from <= until < |trace| && IsRun(trace, steps) && Valid(trace[0])
    requires trace[from].shuttingDown && trace[from].outstanding == 0 && id in trace[from].lanes
    ensures id in trace[until].lanes && trace[until].lanes[id].active <= trace[from].lanes[id].active
    ensures trace[until].shuttingDown && trace[until].outstanding == 0
    decreases until - from
  {
    if from < until {
      DrainedLanesWindDown(trace, steps, from, until - 1, id);
      DrainedMoment(trace, steps, until - 1, id);
    }
  }

  /**
    The idle check is sound although it is not atomic: it reads `outstanding`
    first and then looks at one lane after the other. After a shutdown, a lane
    seen idle at any later moment `seen` is idle ever after.
   */
  lemma SeenIdleStaysIdle(trace: seq<Scheduler>, steps: seq<Step>, drained: nat, seen: nat, later: nat, id: LaneId)
    requires drained <= seen <= later < |trace| && IsRun(trace, steps) && Valid(trace[0])
    requires trace[drained].shuttingDown && trace[drained].outstanding == 0
    requires id in trace[seen].lanes && trace[seen].lanes[id].IsIdle()
    ensures id in trace[later].lanes && trace[later].lanes[id].IsIdle()
  {
    ShutdownIsFinal(trace, steps, drained, seen);
    DrainedLanesWindDown(trace, steps, seen, later, id);
    RunKeepsValid(trace, steps, later);
    DrainedLaneIsEmpty(trace[later], id);
  }

  // -- Draining ends ----------------------------------------------------------------------------------------------

  /** The step that the holder of command `c` takes next; a queued one has none of its own. */
  function NextOf(s: Scheduler, c: CommandId): Step
    requires c in s.commands && s.commands[c].phase != Queued
  {
    match s.commands[c].phase
    case Admitted => if Known(s, c) then EnqueueCommand(c) else RejectUnknownLane(c)
    case Executing => SendResult(c, true)
    case Delayed => PushDelayed(c)
    case Finishing => MarkDone(c)
    case Dropping => DropPermit(c)
  }

  /** Whoever holds a command outside a queue can move it on. */
  ghost predicate HolderMoves(s: Scheduler, c: CommandId)
  {
    c in s.commands && s.commands[c].phase != Queued && Enabled(s, NextOf(s, c))
  }

  /** The lane's queue moves now, or one of its slots is about to come free. */
  ghost predicate LaneMoves(s: Scheduler, id: LaneId)
  {
    || Enabled(s, Start(id))
    || Enabled(s, MarkReleased(id))
    || exists x :: x in s.commands && s.commands[x].lane == id && HoldsSlot(s.commands[x].phase) && HolderMoves(s, x)
  }

  /**
    The scheduler never deadlocks: every command with a permit is moved on by
    whoever holds it, or is queued in a lane that starts something or has a slot
    holder that can move.
   */
  lemma NoDeadlock(s: Scheduler, c: CommandId)
    requires Valid(s) && (forall id | id in s.lanes :: s.lanes[id].maxConcurrency > 0) && c in s.commands
    ensures HolderMoves(s, c) || (InPhase(s, c, Queued) && LaneMoves(s, s.commands[c].lane))
  {
    assert CommandAccounts(s.lanes, s.commands[c]);
    if s.commands[c].phase == Queued { QueuedLaneMoves(s, c); } else { HeldMoves(s, c); }
  }

  lemma HeldMoves(s: Scheduler, c: CommandId)
    requires c in s.commands && s.commands[c].phase != Queued && CommandAccounts(s.lanes, s.commands[c])
    ensures HolderMoves(s, c)
  {
  }

  /** A queued command's lane starts something, or waits for somebody who can move. */
  lemma QueuedLaneMoves(s: Scheduler, c: CommandId)
    requires Valid(s) && InPhase(s, c, Queued)
    requires s.commands[c].lane in s.lanes && s.lanes[s.commands[c].lane].maxConcurrency > 0
    ensures LaneMoves(s, s.commands[c].lane)
  {
    assert LaneAccounts(s, s.commands[c].lane);
    BalancedLaneMoves(s, s.commands[c].lane, c);
  }

  lemma BalancedLaneMoves(s: Scheduler, id: LaneId, c: CommandId)
    requires id in s.lanes && LaneAccounts(s, id) && s.lanes[id].maxConcurrency > 0
    requires InPhase(s, c, Queued) && s.commands[c].lane == id
    ensures LaneMoves(s, id)
  {
    assert c in Those(s.commands, id, Queued);
    if s.lanes[id].HasCapacity() {
      assert c in s.lanes[id].pending;
      assert s.lanes[id].pending[0] in Those(s.commands, id, Queued);
    } else if id !in s.releasing {
      SlotIsHeld(s, id);
    }
  }

  lemma SlotIsHeld(s: Scheduler, id: LaneId)
    requires id in s.lanes && SlotHolders(s, id) > 0 && id !in s.releasing
    ensures exists x :: x in s.commands && s.commands[x].lane == id && HoldsSlot(s.commands[x].phase) && HolderMoves(s, x)
  {
    if Those(s.commands, id, Executing) != {} {
      var x :| x in Those(s.commands, id, Executing);
      assert HolderMoves(s, x);
    } else {
      assert Those(s.commands, id, Finishing) != {};
      var x :| x in Those(s.commands, id, Finishing);
      assert HolderMoves(s, x);
    }
  }

  function PhaseWork(phase: Phase): nat
  {
    match phase
    case Admitted => 7
    case Delayed => 6
    case Queued => 5
    case Executing => 4
    case Finishing => 2
    case Dropping => 1
  }

  /** Steps a command may still take, attempts left included. */
  function CommandWork(lanes: map<LaneId, LaneState>, command: Command): nat
  {
    PhaseWork(command.phase)
    + if command.lane in lanes && command.attempt <= lanes[command.lane].maxRetries
      then 8 * (lanes[command.lane].maxRetries - command.attempt) else 0
  }

  ghost function TotalWork(lanes: map<LaneId, LaneState>, commands: map<CommandId, Command>): nat
    decreases |commands|
  {
    if commands == map[] then 0 else
      var c :| c in commands;
      assert |commands - {c}| < |commands| by { assert (commands - {c}).Keys == commands.Keys - {c}; }
      CommandWork(lanes, commands[c]) + TotalWork(lanes, commands - {c})
  }

  lemma MapShrinks(commands: map<CommandId, Command>, c: CommandId)
    requires c in commands
    ensures |commands - {c}| == |commands| - 1
  {
    assert (commands - {c}).Keys == commands.Keys - {c};
    assert |(commands - {c}).Keys| == |commands - {c}| && |commands.Keys| == |commands|;
  }

  lemma {:induction false} TotalWorkWithout(lanes: map<LaneId, LaneState>, commands: map<CommandId, Command>, c: CommandId)
    requires c in commands
    ensures TotalWork(lanes, commands) == CommandWork(lanes, commands[c]) + TotalWork(lanes, commands - {c})
    decreases |commands|
  {
    var d :| d in commands && TotalWork(lanes, commands) == CommandWork(lanes, commands[d]) + TotalWork(lanes, commands - {d});
    if c != d {
      MapShrinks(commands, d);
      MapShrinks(commands, c);
      TotalWorkWithout(lanes, commands - {d}, c);
      TotalWorkWithout(lanes, commands - {c}, d);
      assert commands - {d} - {c} == commands - {c} - {d};
    }
  }

  lemma {:induction false} TotalWorkOfLanes(lanes: map<LaneId, LaneState>, others: map<LaneId, LaneState>, commands: map<CommandId, Command>)
    requires others.Keys == lanes.Keys && forall id | id in lanes :: others[id].maxRetries == lanes[id].maxRetries
    ensures TotalWork(others, commands) == TotalWork(lanes, commands)
    decreases |commands|
  {
    if commands != map[] {
      var c :| c in commands;
      MapShrinks(commands, c);
      TotalWorkWithout(lanes, commands, c);
      TotalWorkWithout(others, commands, c);
      TotalWorkOfLanes(lanes, others, commands - {c});
    }
  }

  /** Steps the whole queue may still take without admitting anything. */
  ghost function Work(s: Scheduler): nat
  {
    TotalWork(s.lanes, s.commands) + |s.releasing|
  }

  lemma MovedWork(s: Scheduler, t: Scheduler, c: CommandId)
    requires c in s.commands && c in t.commands && t.commands == s.commands[c := t.commands[c]]
    requires t.lanes.Keys == s.lanes.Keys && forall id | id in s.lanes :: t.lanes[id].maxRetries == s.lanes[id].maxRetries
    ensures TotalWork(t.lanes, t.commands) - CommandWork(s.lanes, t.commands[c])
         == TotalWork(s.lanes, s.commands) - CommandWork(s.lanes, s.commands[c])
  {
    TotalWorkOfLanes(s.lanes, t.lanes, t.commands);
    TotalWorkWithout(s.lanes, s.commands, c);
    TotalWorkWithout(s.lanes, t.commands, c);
    assert t.commands - {c} == s.commands - {c};
  }

  /** A command that moves on within its lane has less left to do. */
  lemma MoveUsesWork(s: Scheduler, t: Scheduler, c: CommandId)
    requires c in s.commands && Known(s, c) && CommandAccounts(s.lanes, s.commands[c])
    requires c in t.commands && t.commands == s.commands[c := t.commands[c]] && t.commands[c].lane == s.commands[c].lane
    requires t.lanes.Keys == s.lanes.Keys && forall id | id in s.lanes :: t.lanes[id].maxRetries == s.lanes[id].maxRetries
    requires || (t.commands[c].attempt == s.commands[c].attempt && t.releasing == s.releasing
                 && PhaseWork(t.commands[c].phase) < PhaseWork(s.commands[c].phase))
             || (t.commands[c].attempt == s.commands[c].attempt + 1 <= s.lanes[s.commands[c].lane].maxRetries
                 && |t.releasing| == |s.releasing| + 1 && PhaseWork(t.commands[c].phase) <= PhaseWork(s.commands[c].phase) + 2)
    ensures Work(t) < Work(s)
  {
    MovedWork(s, t, c);
  }

  lemma RetryUsesWork(s: Scheduler, c: CommandId)
    requires Enabled(s, ScheduleRetry(c)) && CommandAccounts(s.lanes, s.commands[c])
    ensures Work(Next(s, ScheduleRetry(c))) < Work(s)
  {
    var t := Next(s, ScheduleRetry(c));
    assert |t.releasing| == |s.releasing| + 1;
    MoveUsesWork(s, t, c);
  }

  lemma ReleaseUsesWork(s: Scheduler, id: LaneId)
    requires Valid(s) && Enabled(s, MarkReleased(id))
    ensures Work(Next(s, MarkReleased(id))) < Work(s)
  {
    var t := Next(s, MarkReleased(id));
    TotalWorkOfLanes(s.lanes, t.lanes, s.commands);
    assert |t.releasing| == |s.releasing| - 1;
  }

  lemma LeaveUsesWork(s: Scheduler, t: Scheduler, c: CommandId)
    requires c in s.commands && t.commands == s.commands - {c} && t.lanes == s.lanes && t.releasing == s.releasing
    ensures Work(t) < Work(s)
  {
    TotalWorkWithout(s.lanes, s.commands, c);
  }

  lemma StartUsesWork(s: Scheduler, id: LaneId)
    requires Valid(s) && Enabled(s, Start(id))
    ensures Work(Next(s, Start(id))) < Work(s)
  {
    var c := s.lanes[id].pending[0];
    assert LaneAccounts(s, id) && CommandAccounts(s.lanes, s.commands[c]);
    assert c in Those(s.commands, id, Queued);
    MoveUsesWork(s, Next(s, Start(id)), c);
  }

  lemma EnqueueUsesWork(s: Scheduler, c: CommandId)
    requires Enabled(s, EnqueueCommand(c)) && CommandAccounts(s.lanes, s.commands[c])
    ensures Work(Next(s, EnqueueCommand(c))) < Work(s)
  {
    MoveUsesWork(s, Next(s, EnqueueCommand(c)), c);
  }

  lemma SendUsesWork(s: Scheduler, c: CommandId, success: bool)
    requires Enabled(s, SendResult(c, success)) && CommandAccounts(s.lanes, s.commands[c])
    ensures Work(Next(s, SendResult(c, success))) < Work(s)
  {
    MoveUsesWork(s, Next(s, SendResult(c, success)), c);
  }

  lemma PushUsesWork(s: Scheduler, c: CommandId)
    requires Enabled(s, PushDelayed(c)) && CommandAccounts(s.lanes, s.commands[c])
    ensures Work(Next(s, PushDelayed(c))) < Work(s)
  {
    MoveUsesWork(s, Next(s, PushDelayed(c)), c);
  }

  lemma DoneUsesWork(s: Scheduler, c: CommandId)
    requires Enabled(s, MarkDone(c)) && CommandAccounts(s.lanes, s.commands[c])
    ensures Work(Next(s, MarkDone(c))) < Work(s)
  {
    MoveUsesWork(s, Next(s, MarkDone(c)), c);
  }

  /** Every step but an admission and the shutdown request itself uses up work. */
  lemma StepUsesWork(s: Scheduler, step: Step)
    requires Valid(s) && Enabled(s, step) && !step.Admit? && !step.Shutdown?
    ensures Work(Next(s, step)) < Work(s)
  {
    assert forall c | c in s.commands :: CommandAccounts(s.lanes, s.commands[c]);
    match step
    case RejectUnknownLane(c) => LeaveUsesWork(s, Next(s, step), c);
    case DropPermit(c) => LeaveUsesWork(s, Next(s, step), c);
    case Start(id) => StartUsesWork(s, id);
    case MarkReleased(id) => ReleaseUsesWork(s, id);
    case ScheduleRetry(c) => RetryUsesWork(s, c);
    case EnqueueCommand(c) => EnqueueUsesWork(s, c);
    case SendResult(c, success) => SendUsesWork(s, c, success);
    case PushDelayed(c) => PushUsesWork(s, c);
    case MarkDone(c) => DoneUsesWork(s, c);
  }

  /** The steps of a run that make progress. */
  function Progress(steps: seq<Step>): nat
  {
    if steps == [] then 0 else
      Progress(steps[..|steps| - 1]) + if steps[|steps| - 1].Shutdown? then 0 else 1
  }

  /**
    Draining ends: after shutdown only as many steps are possible as there is
    work left, so with `NoDeadlock` every fair execution empties the queue.
   */
  lemma {:induction false} DrainIsBounded(trace: seq<Scheduler>, steps: seq<Step>)
    requires IsRun(trace, steps) && Valid(trace[0]) && trace[0].shuttingDown
    ensures Progress(steps) + Work(trace[|steps|]) <= Work(trace[0])
    decreases |steps|
  {
    if steps != [] {
      var n := |steps| - 1;
      assert IsRun(trace[..n + 1], steps[..n]);
      DrainIsBounded(trace[..n + 1], steps[..n]);
      RunKeepsValid(trace, steps, n);
      ShutdownIsFinal(trace, steps, 0, n);
      assert trace[n + 1] == Next(trace[n], steps[n]);
      if !steps[n].Shutdown? { StepUsesWork(trace[n], steps[n]); }
    }
  }
}
