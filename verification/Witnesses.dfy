/**
  Short runs from the empty queue that reach each place where the code falls
  short: a nested flow, a reused id, a retried child and a deduplicated repeat.
 */
module Witnesses {
  import opened Ordering
  import opened JobTypes
  import opened QueueModel
  import opened CoreInvariant
  import opened CoreLifecycle
  import opened Operations
  import opened Steps
  import opened FanIn
  import opened FanInLimits
  import opened SideIndex
  import opened IndexRuns
  import opened DeduplicationOwnership
  import opened RepeatSuccession
  import opened RestartLimits

  // -- Plain jobs --------------------------------------------------------------------------------

  const PLAIN := JobOptions(None, 0, false, None, 0, false, None, false, None, 1, None, None, false, false, false, false)

  function Named(id: JobId): JobSpec { JobSpec("work", PLAIN.(jobId := Some(id))) }

  predicate IsPlain(job: Job)
  {
    && job.options.deduplication.None? && job.options.repeat.None? && job.repeatKey.None?
    && job.state == Waiting && job.scheduledAt == 0 && job.childIds == []
  }

  lemma NamedIsPlain(queue: string, id: JobId, uuid: JobId)
    ensures IsPlain(NewJob(queue, Named(id), uuid, 0)) && NewJob(queue, Named(id), uuid, 0).id == id
    ensures ValidJobId(id) ==> Named(id).options.ValidAt(0)
  {
  }

  lemma OneChild<T>(a: T)
    ensures [a][..0] == [] && [a][0] == a && |[a]| == 1
  {
  }

  lemma TwoChildren<T>(a: T, b: T)
    ensures [a, b][..1] == [a] && [a, b][1] == b && |[a, b]| == 2
  {
  }

  // -- What the operations do with them -------------------------------------------------------------

  /** With one waiting job and none delayed, a claim takes that job. */
  lemma ClaimsTheOnly(s: QueueState, id: JobId, token: Token, now: Time)
    requires !s.paused && id in s.jobs && s.jobs[id].state == Waiting
    requires forall x | x in s.jobs && x != id :: s.jobs[x].state != Waiting && s.jobs[x].state != Delayed
    ensures ClaimNext(s, "w", token, 10, now).state == Put(s, id, Claimed(s.jobs[id], "w", token, 10, now))
  {
    assert DueRanks(s, now) == map[];
    assert PromoteDue(s, now).state == s;
    assert IsClaimable(s, id);
    assert ClaimableIds(s) == {id};
  }

  /** Nothing is skipped, taken or extended on behalf of plain children. */
  lemma PlainScan(s: QueueState, children: seq<Job>, now: Time)
    requires 1 <= |children| <= 2 && forall c | c in children :: c.options.deduplication.None?
    ensures ScanDeduplication(s, children, {}, now) == Scan(s, {}, {}, false) && Unskipped(children, {}) == children
  {
    if |children| == 1 {
      OneChild(children[0]);
      assert children == [children[0]];
    } else {
      TwoChildren(children[0], children[1]);
      OneChild(children[0]);
      assert children == [children[0], children[1]];
      assert ScanDeduplication(s, [children[0]], {}, now) == Scan(s, {}, {}, false);
    }
  }

  lemma StartOne(s: QueueState, root: Job, c: Job, now: Time)
    requires c.id !in s.jobs && root.id != c.id && IsPlain(c) && root.state == WaitingChildren && root.childIds == [c.id]
    ensures StartFlow(s, root, [c], now) == Insert(Insert(s, root), c)
  {
    OneChild(c);
    OneChild(c.id);
    var u := Insert(Insert(s, root), c);
    assert AttachChildren(Insert(s, root), root.id, [c]) == u;
    assert ScanChildren(u, [c.id]) == Blocked;
  }

  /** A plain flow under fresh ids is stored and started. */
  lemma PlainFlowStarts(s: QueueState, parent: Job, children: seq<Job>, now: Time)
    requires IsPlain(parent) && FirstConflict(s, parent.id, [], children).None?
    requires ScanDeduplication(s, children, {}, now) == Scan(s, {}, {}, false) && Unskipped(children, {}) == children
    requires RepeatKeysFree(s, [RootJob(parent, children, now)] + Unstored(s, children))
    ensures AddNewFlow(s, parent, children, now).state == StartFlow(s, RootJob(parent, children, now), children, now)
  {
    assert FindDeduplicationOwner(s, parent, now).None?;
  }

  lemma NewFlowOfOne(s: QueueState, parent: Job, c: Job, now: Time)
    requires parent.id !in s.jobs && c.id !in s.jobs && parent.id != c.id && IsPlain(parent) && IsPlain(c)
    ensures AddNewFlow(s, parent, [c], now).state == Insert(Insert(s, parent.(childIds := [c.id], state := WaitingChildren)), c)
  {
    OneChild(c);
    assert FirstConflict(s, parent.id, [], [c]).None?;
    PlainScan(s, [c], now);
    assert Ids([c]) == [c.id];
    var root := RootJob(parent, [c], now);
    PlainKeysFree(s, root, [c]);
    PlainFlowStarts(s, parent, [c], now);
    StartOne(s, root, c, now);
  }

  lemma PlainKeysFree(s: QueueState, root: Job, children: seq<Job>)
    requires 1 <= |children| <= 2 && root.repeatKey.None? && forall c | c in children :: c.repeatKey.None?
    ensures RepeatKeysFree(s, Unstored(s, children)) && RepeatKeysFree(s, [root] + Unstored(s, children))
  {
    PlainUnstored(s, children);
  }

  lemma {:induction false} PlainUnstored(s: QueueState, children: seq<Job>)
    requires forall c | c in children :: c.repeatKey.None?
    ensures forall c | c in Unstored(s, children) :: c.repeatKey.None?
    decreases |children|
  {
    if children != [] { PlainUnstored(s, children[..|children| - 1]); }
  }

  lemma NewFlowOfTwo(s: QueueState, parent: Job, c: Job, d: Job, now: Time)
    requires parent.id !in s.jobs && c.id !in s.jobs && d.id !in s.jobs && parent.id != c.id && parent.id != d.id && c.id != d.id
    requires IsPlain(parent) && IsPlain(c) && IsPlain(d)
    ensures AddNewFlow(s, parent, [c, d], now).state == Insert(Insert(Insert(s, parent.(childIds := [c.id, d.id], state := WaitingChildren)), c), d)
  {
    TwoChildren(c, d);
    OneChild(c);
    TwoChildren(c.id, d.id);
    OneChild(c.id);
    PlainScan(s, [c, d], now);
    assert Ids([c, d]) == [c.id, d.id];
    var root := RootJob(parent, [c, d], now);
    assert FirstConflict(s, parent.id, [], [c]).None?;
    PlainKeysFree(s, root, [c, d]);
    var u := Insert(Insert(s, root), c);
    assert AttachChildren(Insert(s, root), root.id, [c]) == u;
    assert AttachChildren(Insert(s, root), root.id, [c, d]) == Insert(u, d);
    assert ScanChildren(Insert(u, d), [c.id]) == Blocked;
    assert ScanChildren(Insert(u, d), [c.id, d.id]) == Blocked;
    assert StartFlow(s, root, [c, d], now) == Insert(u, d);
  }

  lemma JoinOne(s: QueueState, p: JobId, parent: Job, c: Job, now: Time)
    requires c.id !in s.jobs && c.id != p && IsPlain(c) && parent.state == WaitingChildren && parent.childIds == [c.id]
    ensures JoinFlow(s, p, parent, [c], now) == Insert(Put(s, p, parent), c)
  {
    OneChild(c);
    OneChild(c.id);
    var u := Insert(Put(s, p, parent), c);
    assert AttachChildren(Put(s, p, parent), p, [c]) == u;
    assert ScanChildren(u, [c.id]) == Blocked;
  }

  /** An active parent parks itself behind one new child. */
  lemma ParksBehindOne(s: QueueState, p: JobId, c: Job, now: Time)
    requires p in s.jobs && s.jobs[p].childIds == [] && c.id !in s.jobs && c.id != p && IsPlain(c)
    ensures ParkBehind(s, p, [c], now).state == Insert(Put(s, p, Parked(s.jobs[p]).(childIds := [c.id])), c)
  {
    OneChild(c);
    OneChild(c.id);
    assert FirstConflict(s, p, [], [c]).None?;
    PlainScan(s, [c], now);
    assert Ids([c]) == [c.id];
    assert AppendNew([], [c.id]) == [c.id];
    PlainKeysFree(s, c, [c]);
    JoinOne(s, p, Parked(s.jobs[p]).(childIds := [c.id]), c, now);
  }

  // -- Runs ------------------------------------------------------------------------------------------------

  /** One step of a witness run: the operation is well formed, its generated ids are fresh, and it leads to `t`. */
  ghost predicate Leads(s: QueueState, op: Op, t: QueueState)
  {
    op.WellFormed() && FreshIds(s, op) && Step(s, op).state == t
  }

  /** `t` is reached from the empty queue by `ops`. */
  ghost predicate Reaches(layout: Layout, ops: seq<Op>, t: QueueState)
  {
    && (forall k | 0 <= k < |ops| :: ops[k].WellFormed())
    && Run(EmptyQueue("q", layout), ops) == t
  }

  lemma {:induction false} RunThen(s: QueueState, ops: seq<Op>, op: Op)
    requires (forall k | 0 <= k < |ops| :: ops[k].WellFormed()) && op.WellFormed()
    ensures Run(s, ops + [op]) == Step(Run(s, ops), op).state
    decreases |ops|
  {
    if ops == [] {
      assert ops + [op] == [op] && [op][1..] == [];
    } else {
      assert (ops + [op])[1..] == ops[1..] + [op] && (ops + [op])[0] == ops[0];
      RunThen(Step(s, ops[0]).state, ops[1..], op);
    }
  }

  /** Some run from the empty queue leads to `t`. */
  ghost predicate Reachable(layout: Layout, t: QueueState)
  {
    Core(t) && exists ops :: Reaches(layout, ops, t)
  }

  lemma Reached(layout: Layout, s: QueueState, op: Op, t: QueueState)
    requires Reachable(layout, s) && Leads(s, op, t)
    ensures Reachable(layout, t)
  {
    var ops :| Reaches(layout, ops, s);
    RunThen(EmptyQueue("q", layout), ops, op);
    StepKeepsCore(s, op);
    assert Reaches(layout, ops + [op], t);
  }

  lemma Start(layout: Layout)
    ensures Reachable(layout, EmptyQueue("q", layout))
  {
    EmptyQueueIsCore("q", layout);
    assert Reaches(layout, [], EmptyQueue("q", layout));
  }

  // -- A nested flow ------------------------------------------------------------------------------------------

  lemma FlowIsNew(s: QueueState, spec: JobSpec, uuid: JobId, specs: seq<JobSpec>, uuids: seq<JobId>, children: seq<Job>)
    requires |specs| == |uuids| && spec.options.ValidAt(0) && forall k | 0 <= k < |specs| :: specs[k].options.ValidAt(0)
    requires children == ChildJobs(s.queue, NewJob(s.queue, spec, uuid, 0).id, specs, uuids, 0)
    requires NoDuplicates([NewJob(s.queue, spec, uuid, 0).id] + Ids(children)) && NewJob(s.queue, spec, uuid, 0).id !in s.jobs
    ensures AddFlow(s, spec, uuid, specs, uuids, 0).state == AddNewFlow(s, NewJob(s.queue, spec, uuid, 0), children, 0).state
  {
  }

  function Child(id: JobId, uuid: JobId, p: JobId): Job { NewJob("q", Named(id), uuid, 0).(parentId := Some(p)) }

  function Root(id: JobId, childIds: seq<JobId>): Job { NewJob("q", Named(id), "u", 0).(childIds := childIds, state := WaitingChildren) }

  lemma AddFlowLeads(s: QueueState, parent: JobSpec, specs: seq<JobSpec>, uuids: seq<JobId>)
    requires |specs| == |uuids| && "" !in uuids
    ensures Leads(s, OpAddFlow(parent, "u", specs, uuids, 0), AddFlow(s, parent, "u", specs, uuids, 0).state)
  {
    SubmissionStep(s, OpAddFlow(parent, "u", specs, uuids, 0));
  }

  lemma FlowOfOneLeads(layout: Layout, g: JobId, p: JobId)
    requires ValidJobId(g) && ValidJobId(p) && g != p
    ensures Leads(EmptyQueue("q", layout), OpAddFlow(Named(g), "u", [Named(p)], ["v"], 0), Flow1(layout, g, p))
  {
    var s := EmptyQueue("q", layout);
    AddFlowLeads(s, Named(g), [Named(p)], ["v"]);
    FlowOfOne(s, g, p);
  }

  lemma FlowOfOne(s: QueueState, g: JobId, p: JobId)
    requires ValidJobId(g) && ValidJobId(p) && g != p && s.queue == "q" && s.jobs == map[]
    ensures AddFlow(s, Named(g), "u", [Named(p)], ["v"], 0).state == Insert(Insert(s, Root(g, [p])), Child(p, "v", g))
  {
    NamedIsPlain("q", g, "u");
    NamedIsPlain("q", p, "v");
    var child := Child(p, "v", g);
    assert ChildJobs("q", g, [Named(p)], ["v"], 0) == [child];
    assert Ids([child]) == [p] && [g] + [p] == [g, p];
    FlowIsNew(s, Named(g), "u", [Named(p)], ["v"], [child]);
    NewFlowOfOne(s, NewJob("q", Named(g), "u", 0), child, 0);
  }

  /** After the flow, after its child was claimed, and after that parked itself behind `c`, which was claimed in turn. */
  function Flow1(layout: Layout, g: JobId, p: JobId): QueueState { Insert(Insert(EmptyQueue("q", layout), Root(g, [p])), Child(p, "v", g)) }

  function ClaimIn(s: QueueState, id: JobId, token: Token): QueueState
    requires id in s.jobs
  {
    Put(s, id, Claimed(s.jobs[id], "w", token, 10, 0))
  }

  function Flow2(layout: Layout, g: JobId, p: JobId): QueueState { ClaimIn(Flow1(layout, g, p), p, 1) }

  function Flow3(layout: Layout, g: JobId, p: JobId, c: JobId): QueueState
  {
    var s := Flow2(layout, g, p);
    Insert(Put(s, p, Parked(s.jobs[p]).(childIds := [c])), Child(c, "x", p))
  }

  function Flow4(layout: Layout, g: JobId, p: JobId, c: JobId): QueueState { ClaimIn(Flow3(layout, g, p, c), c, 2) }

  lemma ClaimLeads(s: QueueState, id: JobId, token: Token)
    requires !s.paused && id in s.jobs && s.jobs[id].state == Waiting && FreshToken(s, token)
    requires forall x | x in s.jobs && x != id :: s.jobs[x].state != Waiting && s.jobs[x].state != Delayed
    ensures Leads(s, OpClaim("w", token, 10, 0), ClaimIn(s, id, token))
  {
    ClaimsTheOnly(s, id, token, 0);
  }

  /** A worker's job parks itself behind one new child. */
  lemma ParkLeads(s: QueueState, p: JobId, c: JobId)
    requires s.queue == "q" && p in s.jobs && s.jobs[p].state == Active && s.jobs[p].lockToken == Some(1) && s.jobs[p].childIds == []
    requires p !in s.flowDependencies && c !in s.jobs && c != p && ValidJobId(c)
    ensures Leads(s, OpAddFlowChildren(p, 1, [Named(c)], ["x"], 0), Insert(Put(s, p, Parked(s.jobs[p]).(childIds := [c])), Child(c, "x", p)))
  {
    SubmissionStep(s, OpAddFlowChildren(p, 1, [Named(c)], ["x"], 0));
    ParksUnderLease(s, p, c);
  }

  lemma ParkIsAccepted(s: QueueState, p: JobId, specs: seq<JobSpec>, uuids: seq<JobId>, children: seq<Job>)
    requires |specs| == |uuids| && specs != [] && forall k | 0 <= k < |specs| :: specs[k].options.ValidAt(0)
    requires children == ChildJobs(s.queue, p, specs, uuids, 0) && NoDuplicates([p] + Ids(children))
    requires RequireLease(s, p, 1).None? && ChildCounts(s, p).failed == 0
    ensures AddFlowChildren(s, p, 1, specs, uuids, 0).state == ParkBehind(s, p, children, 0).state
  {
  }

  lemma ParksUnderLease(s: QueueState, p: JobId, c: JobId)
    requires s.queue == "q" && p in s.jobs && s.jobs[p].state == Active && s.jobs[p].lockToken == Some(1) && s.jobs[p].childIds == []
    requires p !in s.flowDependencies && c !in s.jobs && c != p && ValidJobId(c)
    ensures AddFlowChildren(s, p, 1, [Named(c)], ["x"], 0).state == Insert(Put(s, p, Parked(s.jobs[p]).(childIds := [c])), Child(c, "x", p))
  {
    NamedIsPlain("q", c, "x");
    var child := Child(c, "x", p);
    assert ChildJobs("q", p, [Named(c)], ["x"], 0) == [child];
    assert Ids([child]) == [c] && [p] + [c] == [p, c];
    ParkIsAccepted(s, p, [Named(c)], ["x"], [child]);
    ParksBehindOne(s, p, child, 0);
  }

  /** `g` waits for `p`, which waits for `c`, which a worker holds. */
  ghost predicate Chain(s: QueueState, g: JobId, p: JobId, c: JobId)
  {
    && s.jobs.Keys == {g, p, c} && g != p && c != g && c != p
    && s.jobs[g].state == WaitingChildren && s.jobs[g].childIds == [p] && s.jobs[g].parentId.None?
    && s.jobs[p].state == WaitingChildren && s.jobs[p].childIds == [c] && s.jobs[p].parentId == Some(g)
    && s.jobs[c].state == Active && s.jobs[c].childIds == [] && s.jobs[c].parentId == Some(p) && s.jobs[c].lockToken == Some(2)
    && !s.jobs[c].options.HasFailurePolicy()
  }

  lemma NestedShape(layout: Layout, g: JobId, p: JobId, c: JobId)
    requires g != p && c != g && c != p
    ensures Chain(Flow4(layout, g, p, c), g, p, c)
  {
  }

  lemma Flow1Reached(layout: Layout, g: JobId, p: JobId)
    requires ValidJobId(g) && ValidJobId(p) && g != p
    ensures Reachable(layout, Flow1(layout, g, p))
  {
    Start(layout);
    FlowOfOneLeads(layout, g, p);
    Reached(layout, EmptyQueue("q", layout), OpAddFlow(Named(g), "u", [Named(p)], ["v"], 0), Flow1(layout, g, p));
  }

  /** The one job a claim could take, and a token nobody holds. */
  ghost predicate OnlyWaiting(s: QueueState, id: JobId, token: Token)
  {
    && !s.paused && id in s.jobs && s.jobs[id].state == Waiting && FreshToken(s, token)
    && forall x | x in s.jobs && x != id :: s.jobs[x].state != Waiting && s.jobs[x].state != Delayed
  }

  lemma ClaimReached(layout: Layout, s: QueueState, id: JobId, token: Token)
    requires Reachable(layout, s) && OnlyWaiting(s, id, token)
    ensures Reachable(layout, ClaimIn(s, id, token))
  {
    ClaimLeads(s, id, token);
    Reached(layout, s, OpClaim("w", token, 10, 0), ClaimIn(s, id, token));
  }

  lemma Flow1Ready(layout: Layout, g: JobId, p: JobId, token: Token)
    requires g != p
    ensures OnlyWaiting(Flow1(layout, g, p), p, token)
  {
  }

  lemma Flow2Parks(layout: Layout, g: JobId, p: JobId)
    requires g != p
    ensures var s := Flow2(layout, g, p);
            && s.queue == "q" && s.jobs.Keys == {g, p} && p !in s.flowDependencies
            && s.jobs[p].state == Active && s.jobs[p].lockToken == Some(1) && s.jobs[p].childIds == []
  {
  }

  lemma Flow3Ready(layout: Layout, g: JobId, p: JobId, c: JobId)
    requires g != p && c != g && c != p
    ensures OnlyWaiting(Flow3(layout, g, p, c), c, 2)
  {
  }

  lemma Flow3Reached(layout: Layout, g: JobId, p: JobId, c: JobId)
    requires ValidJobId(g) && ValidJobId(p) && ValidJobId(c) && g != p && c != g && c != p
    requires Reachable(layout, Flow2(layout, g, p))
    ensures Reachable(layout, Flow3(layout, g, p, c))
  {
    Flow2Parks(layout, g, p);
    ParkLeads(Flow2(layout, g, p), p, c);
    Reached(layout, Flow2(layout, g, p), OpAddFlowChildren(p, 1, [Named(c)], ["x"], 0), Flow3(layout, g, p, c));
  }

  lemma NestedRunReaches(layout: Layout, g: JobId, p: JobId, c: JobId)
    requires ValidJobId(g) && ValidJobId(p) && ValidJobId(c) && g != p && c != g && c != p
    ensures Reachable(layout, Flow4(layout, g, p, c))
  {
    Flow1Reached(layout, g, p);
    Flow1Ready(layout, g, p, 1);
    ClaimReached(layout, Flow1(layout, g, p), p, 1);
    Flow3Reached(layout, g, p, c);
    Flow3Ready(layout, g, p, c);
    ClaimReached(layout, Flow3(layout, g, p, c), c, 2);
  }

  lemma ChainIsAwake(s: QueueState, g: JobId, p: JobId, c: JobId)
    requires Chain(s, g, p, c)
    ensures Linked(s) && Awake(s, {}) && Orphans(s, g, p)
  {
    assert Blocking(s, g, p) && Blocking(s, p, c);
  }

  lemma NestedFailureStrands(s: QueueState, g: JobId, p: JobId, c: JobId)
    requires Core(s) && Chain(s, g, p, c)
    ensures Awake(s, {}) && !Awake(Fail(s, c, 2, "boom", false, 0, 0).state, {})
  {
    ChainIsAwake(s, g, p, c);
    NestedFailureLosesWakeUpIff(s, c, p, 2, "boom", false, 0, 0);
  }

  lemma NameIsValid(c: char)
    requires 'a' <= c <= 'z'
    ensures ValidJobId([c])
  {
    assert [c][0] == c && c in [c] && !IsWhitespace(c);
    assert "0"[0] == '0' && "0:"[0] == '0';
  }

  /** Nested flow: some run from the empty queue keeps every parent awake until a grandchild's failure strands its grandparent. */
  lemma NestedFlowLosesWakeUp(layout: Layout)
    ensures exists s :: Reachable(layout, s) && Awake(s, {}) && !Awake(Fail(s, ['c'], 2, "boom", false, 0, 0).state, {})
  {
    var g, p, c := ['a'], ['b'], ['c'];
    NameIsValid('a');
    NameIsValid('b');
    NameIsValid('c');
    assert g[0] != p[0] && p[0] != c[0] && g[0] != c[0];
    NestedRunReaches(layout, g, p, c);
    NestedShape(layout, g, p, c);
    NestedFailureStrands(Flow4(layout, g, p, c), g, p, c);
  }

  // -- A reused id ----------------------------------------------------------------------------------------------

  lemma FlowOfTwoLeads(layout: Layout, p: JobId, c: JobId, d: JobId)
    requires ValidJobId(p) && ValidJobId(c) && ValidJobId(d) && p != c && p != d && c != d
    ensures Leads(EmptyQueue("q", layout), OpAddFlow(Named(p), "u", [Named(c), Named(d)], ["v", "w"], 0), Pair1(layout, p, c, d))
  {
    var s := EmptyQueue("q", layout);
    AddFlowLeads(s, Named(p), [Named(c), Named(d)], ["v", "w"]);
    FlowOfTwo(s, p, c, d);
  }

  lemma FlowOfTwo(s: QueueState, p: JobId, c: JobId, d: JobId)
    requires ValidJobId(p) && ValidJobId(c) && ValidJobId(d) && p != c && p != d && c != d && s.queue == "q" && s.jobs == map[]
    ensures AddFlow(s, Named(p), "u", [Named(c), Named(d)], ["v", "w"], 0).state
         == Insert(Insert(Insert(s, Root(p, [c, d])), Child(c, "v", p)), Child(d, "w", p))
  {
    NamedIsPlain("q", p, "u");
    NamedIsPlain("q", c, "v");
    NamedIsPlain("q", d, "w");
    var x, y := Child(c, "v", p), Child(d, "w", p);
    assert ChildJobs("q", p, [Named(c), Named(d)], ["v", "w"], 0) == [x, y];
    assert Ids([x, y]) == [c, d] && [p] + [c, d] == [p, c, d];
    FlowIsNew(s, Named(p), "u", [Named(c), Named(d)], ["v", "w"], [x, y]);
    NewFlowOfTwo(s, NewJob("q", Named(p), "u", 0), x, y, 0);
  }

  /** A parent of two; the first child removed; its id taken again; the second child removed; the newcomer claimed. */
  function Pair1(layout: Layout, p: JobId, c: JobId, d: JobId): QueueState
  {
    Insert(Insert(Insert(EmptyQueue("q", layout), Root(p, [c, d])), Child(c, "v", p)), Child(d, "w", p))
  }

  function Pair2(layout: Layout, p: JobId, c: JobId, d: JobId): QueueState { Remove(Pair1(layout, p, c, d), c) }

  function Pair3(layout: Layout, p: JobId, c: JobId, d: JobId): QueueState { Insert(Pair2(layout, p, c, d), NewJob("q", Named(c), "x", 0)) }

  function Pair4(layout: Layout, p: JobId, c: JobId, d: JobId): QueueState { Remove(Pair3(layout, p, c, d), d) }

  function Pair5(layout: Layout, p: JobId, c: JobId, d: JobId): QueueState
    requires p != c && p != d && c != d
  {
    ClaimIn(Pair4(layout, p, c, d), c, 1)
  }

  /** Removing a child whose parent still waits for another. */
  lemma RemoveLeads(s: QueueState, c: JobId, p: JobId, other: JobId)
    requires MayRemove(s, c, p, other)
    ensures Leads(s, OpRemove(c, 0), Remove(s, c))
  {
    ScanMeaning(Remove(s, c), s.jobs[p].childIds);
    assert other in Remove(s, c).jobs;
  }

  /** Adding a plain job under a free id. */
  lemma AddLeads(s: QueueState, id: JobId)
    requires ValidJobId(id) && id !in s.jobs && s.queue == "q"
    ensures Leads(s, OpAdd(Named(id), "x", 0), Insert(s, NewJob("q", Named(id), "x", 0)))
  {
    NamedIsPlain("q", id, "x");
  }

  lemma PairReached(layout: Layout, p: JobId, c: JobId, d: JobId)
    requires ValidJobId(p) && ValidJobId(c) && ValidJobId(d) && p != c && p != d && c != d
    ensures Reachable(layout, Pair3(layout, p, c, d))
  {
    Start(layout);
    FlowOfTwoLeads(layout, p, c, d);
    Reached(layout, EmptyQueue("q", layout), OpAddFlow(Named(p), "u", [Named(c), Named(d)], ["v", "w"], 0), Pair1(layout, p, c, d));
    Pair1Removes(layout, p, c, d);
    RemoveLeads(Pair1(layout, p, c, d), c, p, d);
    Reached(layout, Pair1(layout, p, c, d), OpRemove(c, 0), Pair2(layout, p, c, d));
    AddLeads(Pair2(layout, p, c, d), c);
    Reached(layout, Pair2(layout, p, c, d), OpAdd(Named(c), "x", 0), Pair3(layout, p, c, d));
  }

  /** What removing `c` asks for: its parent still waits for `other`. */
  ghost predicate MayRemove(s: QueueState, c: JobId, p: JobId, other: JobId)
  {
    && c in s.jobs && s.jobs[c].state == Waiting && s.jobs[c].parentId == Some(p) && p in s.jobs && p != c && s.jobs[p].state == WaitingChildren
    && other in s.jobs && other != c && !s.jobs[other].state.IsTerminal() && other in s.jobs[p].childIds
  }

  lemma Pair1Removes(layout: Layout, p: JobId, c: JobId, d: JobId)
    requires p != c && p != d && c != d
    ensures MayRemove(Pair1(layout, p, c, d), c, p, d)
    ensures Pair2(layout, p, c, d).queue == "q" && c !in Pair2(layout, p, c, d).jobs
  {
  }

  lemma Pair3Removes(layout: Layout, p: JobId, c: JobId, d: JobId)
    requires p != c && p != d && c != d
    ensures MayRemove(Pair3(layout, p, c, d), d, p, c)
  {
  }

  lemma Pair4Ready(layout: Layout, p: JobId, c: JobId, d: JobId)
    requires p != c && p != d && c != d
    ensures OnlyWaiting(Pair4(layout, p, c, d), c, 1)
  {
  }

  lemma ReuseReached(layout: Layout, p: JobId, c: JobId, d: JobId)
    requires p != c && p != d && c != d && Reachable(layout, Pair3(layout, p, c, d))
    ensures Reachable(layout, Pair5(layout, p, c, d))
  {
    Pair3Removes(layout, p, c, d);
    RemoveLeads(Pair3(layout, p, c, d), d, p, c);
    Reached(layout, Pair3(layout, p, c, d), OpRemove(d, 0), Pair4(layout, p, c, d));
    Pair4Ready(layout, p, c, d);
    ClaimReached(layout, Pair4(layout, p, c, d), c, 1);
  }

  /** `p` waits for `c`, which a worker holds as a job of its own, and for `d`, which is gone. */
  ghost predicate Reused(s: QueueState, p: JobId, c: JobId, d: JobId)
  {
    && s.jobs.Keys == {p, c} && p != c && d != p && d != c && s.flowDependencies == map[]
    && s.jobs[p].state == WaitingChildren && s.jobs[p].childIds == [c, d] && s.jobs[p].parentId.None?
    && s.jobs[c].state == Active && s.jobs[c].childIds == [] && s.jobs[c].parentId.None? && s.jobs[c].lockToken == Some(1)
  }

  lemma ReusedShape(layout: Layout, p: JobId, c: JobId, d: JobId)
    requires p != c && p != d && c != d
    ensures Reused(Pair5(layout, p, c, d), p, c, d)
  {
  }

  lemma ReusedIsAwake(s: QueueState, p: JobId, c: JobId, d: JobId)
    requires Reused(s, p, c, d)
    ensures Awake(s, {}) && Orphans(s, p, c)
    ensures ChildCounts(s, c).unprocessed == 0 && ChildCounts(s, c).failed == 0
  {
    assert Blocking(s, p, c);
  }

  lemma ReusedCompletionStrands(s: QueueState, p: JobId, c: JobId, d: JobId, uuid: JobId)
    requires Core(s) && Reused(s, p, c, d) && uuid != "" && uuid != p && uuid != c && uuid != d
    ensures Awake(s, {}) && !Awake(Complete(s, c, 1, Null, uuid, None, 0).state, {})
  {
    ReusedIsAwake(s, p, c, d);
    ReusedChildLosesWakeUpIff(s, c, 1, Null, uuid, None, 0);
  }

  /** Reused id: some run from the empty queue keeps every parent awake until a reused child completes. */
  lemma ReusedIdLosesWakeUp(layout: Layout)
    ensures exists s :: Reachable(layout, s) && Awake(s, {}) && !Awake(Complete(s, ['b'], 1, Null, ['e'], None, 0).state, {})
  {
    var p, c, d := ['a'], ['b'], ['c'];
    NameIsValid('a');
    NameIsValid('b');
    NameIsValid('c');
    assert p[0] != c[0] && p[0] != d[0] && c[0] != d[0] && ['e'][0] == 'e';
    PairReached(layout, p, c, d);
    ReuseReached(layout, p, c, d);
    ReusedShape(layout, p, c, d);
    ReusedCompletionStrands(Pair5(layout, p, c, d), p, c, d, ['e']);
  }

  // -- A retried child ---------------------------------------------------------------------------------------------

  /** A parent whose only child was claimed and completed, and which was claimed itself. */
  function Done1(layout: Layout, p: JobId, c: JobId): QueueState { ClaimIn(Flow1(layout, p, c), c, 1) }

  function Done2(layout: Layout, p: JobId, c: JobId): QueueState
    requires p != c
  {
    var s := Done1(layout, p, c);
    PutInOrder(Finished(s, p, c), p, Resumed(s.jobs[p], None, 0))
  }

  function Done3(layout: Layout, p: JobId, c: JobId): QueueState
    requires p != c
  {
    ClaimIn(Done2(layout, p, c), p, 2)
  }

  /** `p` waits for `c` alone, which a worker holds. */
  ghost predicate Couple(s: QueueState, p: JobId, c: JobId)
  {
    && p in s.jobs && c in s.jobs && p != c && s.flowDependencies == map[]
    && s.jobs[p].state == WaitingChildren && s.jobs[p].childIds == [c] && s.jobs[p].scheduledAt == 0 && s.jobs[p].parentId.None?
    && s.jobs[c].state == Active && s.jobs[c].lockToken == Some(1) && s.jobs[c].childIds == [] && s.jobs[c].parentId == Some(p)
    && s.jobs[c].id == c && s.jobs[c].options == PLAIN.(jobId := Some(c))
  }

  function Finished(s: QueueState, p: JobId, c: JobId): QueueState
    requires c in s.jobs
  {
    SetIndex(Put(s, c, CompletedJob(s.jobs[c], Null, 0)), p, DependencyIndex(map[c := Null], map[], {}))
  }

  lemma OnlyChildFinishes(s: QueueState, p: JobId, c: JobId, uuid: JobId)
    requires Couple(s, p, c)
    ensures Complete(s, c, 1, Null, uuid, None, 0).state == ReleaseParent(Finished(s, p, c), p, 0)
  {
    var completed := CompletedJob(s.jobs[c], Null, 0);
    assert ChildCounts(s, c).unprocessed == 0 && ChildCounts(s, c).failed == 0;
    assert RecordWithParent(Put(s, c, completed), completed) == Finished(s, p, c);
  }

  lemma OnlyChildReleases(s: QueueState, p: JobId, c: JobId)
    requires Couple(s, p, c)
    ensures ReleaseParent(Finished(s, p, c), p, 0) == PutInOrder(Finished(s, p, c), p, Resumed(s.jobs[p], None, 0))
  {
    OneChild(c);
    assert ScanChildren(Finished(s, p, c), [c]) == Ready(None, None);
  }

  lemma CompletionLeads(s: QueueState, p: JobId, c: JobId, uuid: JobId)
    requires Couple(s, p, c) && uuid != "" && uuid !in s.jobs
    ensures Leads(s, OpComplete(c, 1, Null, uuid, None, 0), PutInOrder(Finished(s, p, c), p, Resumed(s.jobs[p], None, 0)))
  {
    WorkStep(s, OpComplete(c, 1, Null, uuid, None, 0));
    OnlyChildFinishes(s, p, c, uuid);
    OnlyChildReleases(s, p, c);
  }

  lemma Done1IsCouple(layout: Layout, p: JobId, c: JobId)
    requires p != c
    ensures Couple(Done1(layout, p, c), p, c) && Done1(layout, p, c).jobs.Keys == {p, c}
  {
  }

  lemma Done2Ready(layout: Layout, p: JobId, c: JobId)
    requires p != c
    ensures OnlyWaiting(Done2(layout, p, c), p, 2)
  {
  }

  lemma DoneReached(layout: Layout, p: JobId, c: JobId, uuid: JobId)
    requires ValidJobId(p) && ValidJobId(c) && p != c && uuid != "" && uuid != p && uuid != c
    ensures Reachable(layout, Done3(layout, p, c))
  {
    Flow1Reached(layout, p, c);
    Flow1Ready(layout, p, c, 1);
    ClaimReached(layout, Flow1(layout, p, c), c, 1);
    Done2Reached(layout, p, c, uuid);
    Done2Ready(layout, p, c);
    ClaimReached(layout, Done2(layout, p, c), p, 2);
  }

  lemma Done2Reached(layout: Layout, p: JobId, c: JobId, uuid: JobId)
    requires p != c && uuid != "" && uuid != p && uuid != c && Reachable(layout, Done1(layout, p, c))
    ensures Reachable(layout, Done2(layout, p, c))
  {
    Done1IsCouple(layout, p, c);
    CompletionLeads(Done1(layout, p, c), p, c, uuid);
    Reached(layout, Done1(layout, p, c), OpComplete(c, 1, Null, uuid, None, 0), Done2(layout, p, c));
  }

  /** A worker holds `p`, whose only child is finished and indexed. */
  ghost predicate Answered(s: QueueState, p: JobId, c: JobId)
  {
    && s.jobs.Keys == {p, c} && p != c && s.jobs[p].childIds == [c] && s.jobs[c].childIds == [] && s.jobs[c].parentId == Some(p)
    && s.jobs[p].state == Active && s.jobs[c].state == Completed && s.jobs[c].returnValue == Some(Null)
    && s.jobs[c].options == PLAIN.(jobId := Some(c)) && s.jobs[c].repeatKey.None?
    && IndexOf(s, p) == DependencyIndex(map[c := Null], map[], {})
  }

  lemma Done3IsAnswered(layout: Layout, p: JobId, c: JobId)
    requires p != c
    ensures Answered(Done3(layout, p, c), p, c)
  {
  }

  lemma AnsweredIsExact(s: QueueState, p: JobId, c: JobId)
    requires Answered(s, p, c)
    ensures Linked(s) && Exact(s) && !RetryConflicts(s, c, 0)
  {
    assert Agrees(s, p, c, {});
  }

  lemma RetriedChildIsStale(s: QueueState, p: JobId, c: JobId)
    requires Core(s) && Answered(s, p, c)
    ensures Exact(s) && !Exact(Retry(s, c, 0).state)
  {
    AnsweredIsExact(s, p, c);
    RetryKeepsExactIff(s, c, 0);
  }

  /** Child retry: some run from the empty queue keeps the index exact until a finished child of an active parent is retried. */
  lemma RetriedChildLeavesStaleIndex(layout: Layout)
    ensures exists s :: Reachable(layout, s) && Exact(s) && !Exact(Retry(s, ['b'], 0).state)
  {
    NameIsValid('a');
    NameIsValid('b');
    assert ['a'][0] != ['b'][0] && ['e'][0] == 'e';
    DoneReached(layout, ['a'], ['b'], ['e']);
    Done3IsAnswered(layout, ['a'], ['b']);
    RetriedChildIsStale(Done3(layout, ['a'], ['b']), ['a'], ['b']);
  }

  // -- A deduplicated repeat ---------------------------------------------------------------------------------------------

  /** Repeats every ten ticks, under an id it holds for a hundred. */
  const REPEATED := JobSpec("work", PLAIN.(repeat := Some(RepeatOptions(Every(10), None, None, None)),
                                           deduplication := Some(DeduplicationOptions(['d'], Some(100), false, false))))

  function Series1(layout: Layout, id: JobId): QueueState { Insert(EmptyQueue("q", layout), NewJob("q", REPEATED, id, 0)) }

  function Series2(layout: Layout, id: JobId): QueueState { ClaimIn(Series1(layout, id), id, 1) }

  lemma SeriesReached(layout: Layout, id: JobId)
    requires id != ""
    ensures Reachable(layout, Series2(layout, id))
  {
    var s := EmptyQueue("q", layout);
    Start(layout);
    assert ['d'][0] == 'd' && 'd' in ['d'] && !IsWhitespace('d');
    assert REPEATED.options.ValidAt(0);
    assert DeduplicationOwners(s, ['d'], 0) == {} && forall key :: RepeatOwners(s, key) == {};
    assert Add(s, REPEATED, id, 0).state == Series1(layout, id);
    Reached(layout, s, OpAdd(REPEATED, id, 0), Series1(layout, id));
    ClaimReached(layout, Series1(layout, id), id, 1);
  }

  /** A worker holds the only job, an occurrence of the series. */
  ghost predicate OnlyOccurrence(s: QueueState, id: JobId)
  {
    && s.queue == "q" && s.jobs.Keys == {id} && s.releasedOwners == {}
    && s.jobs[id].state == Active && s.jobs[id].lockToken == Some(1) && s.jobs[id].parentId.None? && s.jobs[id].childIds == []
    && s.jobs[id].options == REPEATED.options && s.jobs[id].deduplicationExpiresAt == Some(100) && s.jobs[id].repeatCount == 0
    && IndexOf(s, id) == EMPTY_INDEX
  }

  lemma Series2Shape(layout: Layout, id: JobId)
    ensures OnlyOccurrence(Series2(layout, id), id)
  {
  }

  lemma OccurrenceOwns(s: QueueState, id: JobId, uuid: JobId)
    requires OnlyOccurrence(s, id) && uuid != id
    ensures UniqueOwners(s, 0) && IsDeduplicationOwner(s, id, ['d'], 0)
    ensures ChildCounts(s, id).unprocessed == 0 && ChildCounts(s, id).failed == 0
    ensures NextRepeatJob("q", CompletedJob(s.jobs[id], Null, 0), uuid, None, 0).Some?
  {
  }

  lemma SuccessionSharesId(s: QueueState, id: JobId, uuid: JobId)
    requires Core(s) && OnlyOccurrence(s, id) && uuid != "" && uuid != id
    ensures UniqueOwners(s, 0) && !UniqueOwners(Complete(s, id, 1, Null, uuid, None, 0).state, 0)
  {
    OccurrenceOwns(s, id, uuid);
    assert !OwnerGoes(s, id, Null, uuid, 0, id);
    CompletionKeepsUniqueIff(s, id, 1, Null, uuid, None, 0);
  }

  /**
    Deduplicated repeat: some run from the empty queue keeps owners unique until
    an occurrence completes; from there a restart can be observed.
   */
  lemma RepeatedSuccessionSharesId(layout: Layout)
    ensures exists s ::
              && Reachable(layout, s) && UniqueOwners(s, 0)
              && var t := Complete(s, ['a'], 1, Null, ['b'], None, 0).state; !UniqueOwners(t, 0) && !NeverObserved(t, 0)
  {
    var s := Series2(layout, ['a']);
    assert ['a'][0] != ['b'][0];
    SeriesReached(layout, ['a']);
    Series2Shape(layout, ['a']);
    SuccessionIsObserved(s, ['a'], ['b']);
  }

  lemma SuccessionIsObserved(s: QueueState, id: JobId, uuid: JobId)
    requires Core(s) && OnlyOccurrence(s, id) && uuid != "" && uuid != id
    ensures UniqueOwners(s, 0)
    ensures var t := Complete(s, id, 1, Null, uuid, None, 0).state; !UniqueOwners(t, 0) && !NeverObserved(t, 0)
  {
    SuccessionSharesId(s, id, uuid);
    CompleteKeeps(s, id, 1, Null, uuid, None, 0);
    SharedMeansObserved(Complete(s, id, 1, Null, uuid, None, 0).state);
  }

  lemma SharedMeansObserved(t: QueueState)
    requires Core(t) && !UniqueOwners(t, 0)
    ensures !NeverObserved(t, 0)
  {
    var x, y, d :| IsDeduplicationOwner(t, x, d, 0) && IsDeduplicationOwner(t, y, d, 0) && x != y;
    SharedIdIsObserved(t, 0, x, y, d);
  }
}
