/**
  Stalled recovery fails many jobs at once. Where none of them only gives up its
  own dependency, this file says exactly which wake-ups that loses.
 */
module RecoveryLimits {
  import opened Ordering
  import opened JobTypes
  import opened QueueModel
  import opened CoreInvariant
  import opened CoreLifecycle
  import opened Operations
  import opened FanIn
  import opened FanInRuns
  import opened FanInLimits

  // -- Many failed children ----------------------------------------------------------------------

  /** The parents of those failures that call for reaction `r`. */
  function Named(failures: seq<Job>, r: Reaction): set<JobId>
  {
    set k | 0 <= k < |failures| && failures[k].parentId.Some? && ReactionTo(failures[k]) == r :: failures[k].parentId.value
  }

  /** Parents that a whole phase of reactions fails. */
  function PhaseFails(s: QueueState, failures: seq<Job>, r: Reaction): set<JobId>
  {
    set p | p in Named(failures, r) && r == FailOutright && IsLive(s, p)
  }

  /** Parents that it moves on. */
  function PhaseMoves(s: QueueState, failures: seq<Job>, r: Reaction): set<JobId>
  {
    set p | p in Named(failures, r) && ((r == Defer && IsLive(s, p)) || (r == Continue && IsParked(s, p)))
  }

  lemma NamedOneMore(failures: seq<Job>, r: Reaction)
    requires failures != []
    ensures var n := |failures| - 1;
            Named(failures, r) == Named(failures[..n], r)
              + if failures[n].parentId.Some? && ReactionTo(failures[n]) == r then {failures[n].parentId.value} else {}
  {
    var n := |failures| - 1;
    forall p ensures p in Named(failures, r) <==>
      p in Named(failures[..n], r) || (failures[n].parentId == Some(p) && ReactionTo(failures[n]) == r)
    {
      if p in Named(failures, r) {
        var k :| 0 <= k <= n && failures[k].parentId == Some(p) && ReactionTo(failures[k]) == r;
        if k < n { assert failures[..n][k] == failures[k]; }
      }
      if p in Named(failures[..n], r) {
        var k :| 0 <= k < n && failures[..n][k].parentId == Some(p) && ReactionTo(failures[..n][k]) == r;
        assert failures[k] == failures[..n][k];
      }
    }
  }

  /** A phase of reactions ends and moves exactly the parents it names. */
  lemma {:induction false} PhaseEnds(s: QueueState, failures: seq<Job>, r: Reaction, now: Time)
    requires r != Release
    ensures var t := ReactAll(s, failures, r, now);
            Ended(s, t, PhaseFails(s, failures, r), PhaseMoves(s, failures, r)) && t.jobs.Keys <= s.jobs.Keys
    decreases |failures|
  {
    if failures == [] {
      NothingEnded(s);
      assert PhaseFails(s, failures, r) == {} && PhaseMoves(s, failures, r) == {};
    } else {
      var n := |failures| - 1;
      PhaseEnds(s, failures[..n], r, now);
      NamedOneMore(failures, r);
      if failures[n].parentId.Some? && ReactionTo(failures[n]) == r {
        PhaseOneMore(s, failures, r, now);
      } else {
        assert PhaseFails(s, failures, r) == PhaseFails(s, failures[..n], r) && PhaseMoves(s, failures, r) == PhaseMoves(s, failures[..n], r);
      }
    }
  }

  lemma PhaseOneMore(s: QueueState, failures: seq<Job>, r: Reaction, now: Time)
    requires r != Release && failures != []
    requires var n := |failures| - 1;
             && failures[n].parentId.Some? && ReactionTo(failures[n]) == r
             && Named(failures, r) == Named(failures[..n], r) + {failures[n].parentId.value}
             && Ended(s, ReactAll(s, failures[..n], r, now), PhaseFails(s, failures[..n], r), PhaseMoves(s, failures[..n], r))
             && ReactAll(s, failures[..n], r, now).jobs.Keys <= s.jobs.Keys
    ensures var t := ReactAll(s, failures, r, now);
            Ended(s, t, PhaseFails(s, failures, r), PhaseMoves(s, failures, r)) && t.jobs.Keys <= s.jobs.Keys
  {
    var n := |failures| - 1;
    var u, p := ReactAll(s, failures[..n], r, now), failures[n].parentId.value;
    var e, m := PhaseFails(s, failures[..n], r), PhaseMoves(s, failures[..n], r);
    var f, o := Only(ReactionFails(u, failures[n], p), p), Only(ReactionMoves(u, failures[n], p), p);
    ReactEnds(u, failures[n], p, now);
    PhaseParent(s, u, r, e, m, p);
    PhaseSets(s, u, failures, r, p);
    EndedTwice(s, u, React(u, failures[n], now), e, m, f, o);
  }

  lemma PhaseSets(s: QueueState, u: QueueState, failures: seq<Job>, r: Reaction, p: JobId)
    requires r != Release && failures != []
    requires var n := |failures| - 1;
             && failures[n].parentId == Some(p) && ReactionTo(failures[n]) == r && Named(failures, r) == Named(failures[..n], r) + {p}
             && (p !in PhaseFails(s, failures[..n], r) && p !in PhaseMoves(s, failures[..n], r)
                 ==> (IsLive(u, p) <==> IsLive(s, p)) && (IsParked(u, p) <==> IsParked(s, p)))
    requires (IsLive(u, p) ==> IsLive(s, p)) && (IsParked(u, p) ==> IsParked(s, p)) && (r == Defer ==> (IsLive(u, p) <==> IsLive(s, p)))
    ensures var n := |failures| - 1;
            && PhaseFails(s, failures[..n], r) + Only(ReactionFails(u, failures[n], p), p) == PhaseFails(s, failures, r)
            && PhaseMoves(s, failures[..n], r) + Only(ReactionMoves(u, failures[n], p), p) == PhaseMoves(s, failures, r)
  {
  }

  /** Earlier reactions of the phase do not change what the next one does to a parent they did not touch. */
  lemma PhaseParent(s: QueueState, u: QueueState, r: Reaction, e: set<JobId>, m: set<JobId>, p: JobId)
    requires r != Release && Ended(s, u, e, m) && u.jobs.Keys <= s.jobs.Keys
    requires (e == {} || r == FailOutright) && (m == {} || r != FailOutright)
    ensures p !in e && p !in m ==> (IsLive(u, p) <==> IsLive(s, p)) && (IsParked(u, p) <==> IsParked(s, p))
    ensures r == Defer ==> (IsLive(u, p) <==> IsLive(s, p))
    ensures IsLive(u, p) ==> IsLive(s, p)
    ensures IsParked(u, p) ==> IsParked(s, p)
  {
    if p in s.jobs && p !in e && p !in m { assert p in u.jobs ==> u.jobs[p] == s.jobs[p]; }
  }

  // -- Recovery ------------------------------------------------------------------------------------------

  /** Jobs that this recovery fails for good. */
  ghost function Dying(s: QueueState, now: Time): set<JobId>
  {
    set id | id in StalledRanks(s, now) && Stalled(s.jobs[id]).stalledCount > s.jobs[id].options.maxStalledCount && !IsRepeatSchedulerJob(Stalled(s.jobs[id]))
  }

  /** Their live parents that fail with them. */
  ghost function Downed(s: QueueState, now: Time): set<JobId>
  {
    set c | c in Dying(s, now) && s.jobs[c].parentId.Some? && ReactionTo(s.jobs[c]) == FailOutright
            && IsLive(s, s.jobs[c].parentId.value) && s.jobs[c].parentId.value !in Dying(s, now) :: s.jobs[c].parentId.value
  }

  /** A dying child lets `g` go on. */
  ghost predicate Resumes(s: QueueState, g: JobId, now: Time)
  {
    exists c :: c in Dying(s, now) && s.jobs[c].parentId == Some(g) && (ReactionTo(s.jobs[c]) == Defer || ReactionTo(s.jobs[c]) == Continue)
  }

  /** What recovery makes of one stalled job. */
  lemma RecoveredIs(s: QueueState, t: QueueState, id: JobId, now: Time)
    requires Core(s) && id in StalledRanks(s, now) && id in t.jobs && RecoveredFrom(s.jobs[id], t.jobs[id], now)
    ensures id in Dying(s, now) <==> t.jobs[id].state == Failed
    ensures id !in Dying(s, now) ==> t.jobs[id].state == Waiting
    ensures t.jobs[id].id == id && t.jobs[id].options == s.jobs[id].options && t.jobs[id].parentId == s.jobs[id].parentId
    ensures IsLive(s, id)
  {
    assert WellFormedJob(id, s.jobs[id]);
  }

  ghost function RecoveredState(s: QueueState, now: Time): QueueState
  {
    RecoverEach(s, Sorted(StalledRanks(s, now), StalledRanks(s, now).Keys), now)
  }

  ghost function Failures(s: QueueState, now: Time): seq<Job>
  {
    FailedAmong(RecoveredState(s, now), Sorted(StalledRanks(s, now), StalledRanks(s, now).Keys))
  }

  lemma RecoveredEnds(s: QueueState, now: Time)
    requires Core(s)
    ensures Ended(s, RecoveredState(s, now), Dying(s, now), StalledRanks(s, now).Keys)
    ensures RecoveredState(s, now).jobs.Keys == s.jobs.Keys
  {
    var ids := Sorted(StalledRanks(s, now), StalledRanks(s, now).Keys);
    RecoverEachFrame(s, ids, now);
    RecoveredAllEnd(s, RecoveredState(s, now), now);
  }

  lemma RecoveredAllEnd(s: QueueState, t: QueueState, now: Time)
    requires Core(s) && t.jobs.Keys == s.jobs.Keys
    requires forall id | id in s.jobs && id !in StalledRanks(s, now) :: t.jobs[id] == s.jobs[id]
    requires forall id | id in StalledRanks(s, now) :: RecoveredFrom(s.jobs[id], t.jobs[id], now)
    ensures Ended(s, t, Dying(s, now), StalledRanks(s, now).Keys)
  {
    var stalled := StalledRanks(s, now).Keys;
    forall id | id in stalled
      ensures IsLive(s, id) && (id in Dying(s, now) <==> t.jobs[id].state == Failed) && (id !in Dying(s, now) ==> t.jobs[id].state == Waiting)
    {
      RecoveredIs(s, t, id, now);
    }
    SplitEnds(s, t, Dying(s, now), stalled);
  }

  lemma SplitEnds(s: QueueState, t: QueueState, dying: set<JobId>, stalled: set<JobId>)
    requires t.jobs.Keys == s.jobs.Keys && dying <= stalled
    requires forall id | id in s.jobs && id !in stalled :: t.jobs[id] == s.jobs[id]
    requires forall id | id in stalled :: IsLive(s, id) && (id in dying <==> t.jobs[id].state == Failed) && (id !in dying ==> t.jobs[id].state == Waiting)
    ensures Ended(s, t, dying, stalled)
  {
  }

  /** `failures` are the dying jobs, as failed. */
  ghost predicate AreFailures(s: QueueState, failures: seq<Job>, now: Time)
  {
    && (forall f | f in failures :: f.id in Dying(s, now) && f.options == s.jobs[f.id].options && f.parentId == s.jobs[f.id].parentId)
    && (forall id | id in Dying(s, now) ::
          exists f :: f in failures && f.id == id && f.options == s.jobs[id].options && f.parentId == s.jobs[id].parentId)
  }

  lemma FailuresAreDying(s: QueueState, now: Time)
    requires Core(s)
    ensures AreFailures(s, Failures(s, now), now)
  {
    var ids := Sorted(StalledRanks(s, now), StalledRanks(s, now).Keys);
    var t := RecoveredState(s, now);
    RecoverEachFrame(s, ids, now);
    FailedAmongMeans(t, ids);
    FoundFailures(s, t, ids, Failures(s, now), now);
  }

  lemma FoundFailures(s: QueueState, t: QueueState, ids: seq<JobId>, failures: seq<Job>, now: Time)
    requires Core(s) && t.jobs.Keys == s.jobs.Keys && forall id :: id in ids <==> id in StalledRanks(s, now)
    requires forall id | id in ids :: RecoveredFrom(s.jobs[id], t.jobs[id], now)
    requires forall x :: x in failures <==> exists id :: id in ids && id in t.jobs && t.jobs[id].state == Failed && t.jobs[id] == x
    ensures AreFailures(s, failures, now)
  {
    forall f | f in failures ensures f.id in Dying(s, now) && f.options == s.jobs[f.id].options && f.parentId == s.jobs[f.id].parentId {
      var id :| id in ids && id in t.jobs && t.jobs[id].state == Failed && t.jobs[id] == f;
      RecoveredIs(s, t, id, now);
    }
    forall id | id in Dying(s, now)
      ensures exists f :: f in failures && f.id == id && f.options == s.jobs[id].options && f.parentId == s.jobs[id].parentId
    {
      assert id in ids;
      RecoveredIs(s, t, id, now);
      assert t.jobs[id] in failures;
    }
  }

  /** Dropping records of ended jobs, indexing and retention end nobody. */
  lemma SettledEnds(s: QueueState, failures: seq<Job>, now: Time)
    requires forall f | f in failures :: !IsLive(s, f.id)
    ensures var t := SettleFailures(RemoveAll(s, RemovedAtOnce(failures)), failures, now);
            Ended(s, t, {}, {}) && t.jobs.Keys <= s.jobs.Keys
  {
    var u := RemoveAll(s, RemovedAtOnce(failures));
    forall x | x in RemovedAtOnce(failures) ensures !IsLive(s, x) {
      var k :| 0 <= k < |failures| && failures[k].options.RemovesFailedImmediately() && failures[k].id == x;
      assert failures[k] in failures;
    }
    assert Ended(s, u, {}, {});
    SettleAllEnds(u, failures, now);
    EndedTwice(s, u, SettleFailures(u, failures, now), {}, {}, {}, {});
    var none: set<JobId> := {};
    assert none + none == none;
  }

  lemma {:induction false} SettleAllEnds(s: QueueState, failures: seq<Job>, now: Time)
    ensures var t := SettleFailures(s, failures, now); Ended(s, t, {}, {}) && t.jobs.Keys <= s.jobs.Keys
    decreases |failures|
  {
    if failures == [] {
      NothingEnded(s);
    } else {
      var n := |failures| - 1;
      SettleAllEnds(s, failures[..n], now);
      var u := SettleFailures(s, failures[..n], now);
      SettleEnds(u, failures[n], now);
      EndedTwice(s, u, SettleFailure(u, failures[n], now), {}, {}, {}, {});
      var none: set<JobId> := {};
    assert none + none == none;
    }
  }

  lemma SettleEnds(s: QueueState, failed: Job, now: Time)
    ensures var t := SettleFailure(s, failed, now); Ended(s, t, {}, {}) && t.jobs.Keys <= s.jobs.Keys
  {
    var recorded := RecordWithParent(s, failed);
    RecordTouchesNoJob(s, failed);
    if failed.options.FailedRetention().Some? {
      var retention := failed.options.FailedRetention().value;
      var aged := AgePass(recorded, Failed, retention, now);
      RetentionOnlyRemoves(recorded, Failed, retention, now);
      EvictsOnlyFinished(recorded, Failed, retention, now);
      RetentionOnlyRemoves(aged, Failed, retention, now);
      EvictsOnlyFinished(aged, Failed, retention, now);
    }
  }

  /** No dying child merely gives up its own dependency. */
  ghost predicate NobodyReleases(s: QueueState, now: Time)
  {
    forall c | c in Dying(s, now) && s.jobs[c].parentId.Some? :: ReactionTo(s.jobs[c]) != Release
  }

  // -- The whole recovery ------------------------------------------------------------------------------------

  /** The recovered jobs, settled, before any parent is told. */
  ghost function SettledState(s: QueueState, now: Time): QueueState
  {
    SettleFailures(RemoveAll(RecoveredState(s, now), RemovedAtOnce(Failures(s, now))), Failures(s, now), now)
  }

  lemma SettledStateEnds(s: QueueState, now: Time)
    requires Core(s)
    ensures Ended(s, SettledState(s, now), Dying(s, now), StalledRanks(s, now).Keys)
    ensures SettledState(s, now).jobs.Keys <= s.jobs.Keys
  {
    RecoveredEnds(s, now);
    FailuresAreDying(s, now);
    ThenSettled(s, RecoveredState(s, now), Failures(s, now), Dying(s, now), StalledRanks(s, now).Keys, now);
  }

  lemma ThenSettled(s: QueueState, w: QueueState, failures: seq<Job>, ends: set<JobId>, moved: set<JobId>, now: Time)
    requires Ended(s, w, ends, moved) && w.jobs.Keys <= s.jobs.Keys && forall f | f in failures :: f.id in ends
    ensures var t := SettleFailures(RemoveAll(w, RemovedAtOnce(failures)), failures, now);
            Ended(s, t, ends, moved) && t.jobs.Keys <= s.jobs.Keys
  {
    assert forall f | f in failures :: !IsLive(w, f.id);
    SettledEnds(w, failures, now);
    var none: set<JobId> := {};
    EndedTwice(s, w, SettleFailures(RemoveAll(w, RemovedAtOnce(failures)), failures, now), ends, moved, none, none);
    assert ends + none == ends && moved + none == moved;
  }

  /** Without releases, recovery is three phases after the jobs settled. */
  lemma {:induction false} NothingToRelease(s: QueueState, failures: seq<Job>, now: Time)
    requires forall f | f in failures && f.parentId.Some? :: ReactionTo(f) != Release
    ensures ReactAll(s, failures, Release, now) == s
    decreases |failures|
  {
    if failures != [] {
      var n := |failures| - 1;
      assert failures == failures[..n] + [failures[n]];
      NothingToRelease(s, failures[..n], now);
    }
  }

  /** Of the waiting parents, `moved` are those that a failure defers or continues. */
  ghost predicate MovesTheNamed(s: QueueState, failures: seq<Job>, moved: set<JobId>)
  {
    moved <= s.jobs.Keys && forall g | IsParked(s, g) :: g in moved <==> g in Named(failures, Defer) || g in Named(failures, Continue)
  }

  /** All three phases: what they end, and what they move. */
  lemma ReactionsEnd(s: QueueState, failures: seq<Job>, now: Time)
    requires forall f | f in failures && f.parentId.Some? :: ReactionTo(f) != Release
    ensures var t := Reactions(s, failures, now);
            && t.jobs.Keys <= s.jobs.Keys
            && exists moved :: Ended(s, t, PhaseFails(s, failures, FailOutright), moved) && MovesTheNamed(s, failures, moved)
  {
    var a := ReactAll(s, failures, Defer, now);
    var b := ReactAll(a, failures, Continue, now);
    var m, n := PhaseMoves(s, failures, Defer), PhaseMoves(a, failures, Continue);
    var none: set<JobId> := {};
    PhaseEnds(s, failures, Defer, now);
    PhaseEnds(a, failures, Continue, now);
    NothingToRelease(b, failures, now);
    PhaseEnds(b, failures, FailOutright, now);
    assert PhaseFails(s, failures, Defer) == none && PhaseFails(a, failures, Continue) == none && PhaseMoves(b, failures, FailOutright) == none;
    EndedTwice(s, a, b, none, m, none, n);
    assert none + none == none;
    StillLive(s, b, failures, none, m + n);
    BothPhasesMove(s, a, failures);
    LastPhaseEnds(s, b, Reactions(s, failures, now), m + n, PhaseFails(s, failures, FailOutright));
  }

  lemma LastPhaseEnds(s: QueueState, b: QueueState, t: QueueState, moved: set<JobId>, downs: set<JobId>)
    requires Ended(s, b, {}, moved) && Ended(b, t, downs, {}) && t.jobs.Keys <= b.jobs.Keys
    ensures Ended(s, t, downs, moved)
  {
    EndedTwice(s, b, t, {}, moved, downs, {});
    assert {} + downs == downs && moved + {} == moved;
  }

  lemma BothPhasesMove(s: QueueState, a: QueueState, failures: seq<Job>)
    requires Ended(s, a, {}, PhaseMoves(s, failures, Defer))
    ensures MovesTheNamed(s, failures, PhaseMoves(s, failures, Defer) + PhaseMoves(a, failures, Continue))
  {
    var m, n := PhaseMoves(s, failures, Defer), PhaseMoves(a, failures, Continue);
    forall g | IsParked(s, g) ensures g in m + n <==> g in Named(failures, Defer) || g in Named(failures, Continue) {
      if g !in m && g in Named(failures, Continue) { assert IsLive(s, g) && a.jobs[g] == s.jobs[g]; }
      if g in n { assert g in Named(failures, Continue); }
    }
  }

  /** Moving on is not ending. */
  lemma StillLive(s: QueueState, b: QueueState, failures: seq<Job>, none: set<JobId>, moved: set<JobId>)
    requires none == {} && Ended(s, b, none, moved) && b.jobs.Keys <= s.jobs.Keys
    ensures PhaseFails(b, failures, FailOutright) == PhaseFails(s, failures, FailOutright)
  {
    forall p ensures IsLive(b, p) <==> IsLive(s, p) {
      if p in b.jobs && p !in moved { assert b.jobs[p] == s.jobs[p]; }
    }
  }

  /** The parents the phases name are those of the dying jobs. */
  lemma NamedAreParents(s: QueueState, failures: seq<Job>, now: Time, r: Reaction, p: JobId)
    requires AreFailures(s, failures, now)
    ensures p in Named(failures, r) <==> exists c :: c in Dying(s, now) && s.jobs[c].parentId == Some(p) && ReactionTo(s.jobs[c]) == r
  {
    if p in Named(failures, r) {
      var k :| 0 <= k < |failures| && failures[k].parentId == Some(p) && ReactionTo(failures[k]) == r;
      assert failures[k] in failures;
      assert failures[k].id in Dying(s, now) && ReactionTo(s.jobs[failures[k].id]) == r;
    }
    if c :| c in Dying(s, now) && s.jobs[c].parentId == Some(p) && ReactionTo(s.jobs[c]) == r {
      DyingIsNamed(s, failures, now, r, p, c);
    }
  }

  lemma DyingIsNamed(s: QueueState, failures: seq<Job>, now: Time, r: Reaction, p: JobId, c: JobId)
    requires AreFailures(s, failures, now)
    requires c in Dying(s, now) && s.jobs[c].parentId == Some(p) && ReactionTo(s.jobs[c]) == r
    ensures p in Named(failures, r)
  {
    var f :| f in failures && f.id == c && f.options == s.jobs[c].options && f.parentId == s.jobs[c].parentId;
    var k :| 0 <= k < |failures| && failures[k] == f;
    assert ReactionTo(failures[k]) == r;
  }

  lemma DownedAreNamed(s: QueueState, w: QueueState, failures: seq<Job>, now: Time)
    requires AreFailures(s, failures, now)
    requires Ended(s, w, Dying(s, now), StalledRanks(s, now).Keys) && w.jobs.Keys <= s.jobs.Keys
    ensures PhaseFails(w, failures, FailOutright) == Downed(s, now)
  {
    forall p ensures p in PhaseFails(w, failures, FailOutright) <==> p in Downed(s, now) {
      NamedAreParents(s, failures, now, FailOutright, p);
      assert IsLive(w, p) <==> IsLive(s, p) && p !in Dying(s, now) by {
        if p in w.jobs && p !in Dying(s, now) && p !in StalledRanks(s, now).Keys { assert w.jobs[p] == s.jobs[p]; }
      }
      if p in PhaseFails(w, failures, FailOutright) {
        var c :| c in Dying(s, now) && s.jobs[c].parentId == Some(p) && ReactionTo(s.jobs[c]) == FailOutright;
      }
    }
  }

  /**
    Stalled recovery, however many jobs it fails, loses a wake-up if and only if
    some parent that no dying child lets go on waited for nobody but dying jobs
    and the parents that fail with them.
   */
  lemma RecoveryLosesWakeUpIff(s: QueueState, now: Time)
    requires Core(s) && NobodyReleases(s, now)
    ensures Awake(RecoverStalled(s, now).state, {})
       <==> !exists g :: !Resumes(s, g, now) && Strands(s, g, Dying(s, now) + Downed(s, now))
  {
    SettledStateEnds(s, now);
    FailuresAreDying(s, now);
    RecoveryIs(s, now);
    ReactedEnds(s, SettledState(s, now), Failures(s, now), now);
  }

  lemma RecoveryIs(s: QueueState, now: Time)
    ensures RecoverStalled(s, now).state == Reactions(SettledState(s, now), Failures(s, now), now)
  {
  }

  lemma ReactedEnds(s: QueueState, w: QueueState, failures: seq<Job>, now: Time)
    requires NobodyReleases(s, now) && AreFailures(s, failures, now)
    requires Ended(s, w, Dying(s, now), StalledRanks(s, now).Keys) && w.jobs.Keys <= s.jobs.Keys
    ensures Awake(Reactions(w, failures, now), {})
       <==> !exists g :: !Resumes(s, g, now) && Strands(s, g, Dying(s, now) + Downed(s, now))
  {
    var t := Reactions(w, failures, now);
    ReactionsEnd(w, failures, now);
    DownedAreNamed(s, w, failures, now);
    var moved :| Ended(w, t, PhaseFails(w, failures, FailOutright), moved) && MovesTheNamed(w, failures, moved);
    RecoveryEnds(s, w, t, failures, now, moved);
  }

  lemma RecoveryEnds(s: QueueState, w: QueueState, t: QueueState, failures: seq<Job>, now: Time, moved: set<JobId>)
    requires AreFailures(s, failures, now) && Ended(s, w, Dying(s, now), StalledRanks(s, now).Keys) && w.jobs.Keys <= s.jobs.Keys
    requires Ended(w, t, Downed(s, now), moved) && t.jobs.Keys <= w.jobs.Keys && MovesTheNamed(w, failures, moved)
    ensures Awake(t, {}) <==> !exists g :: !Resumes(s, g, now) && Strands(s, g, Dying(s, now) + Downed(s, now))
  {
    var ends, all := Dying(s, now) + Downed(s, now), StalledRanks(s, now).Keys + moved;
    EndedTwice(s, w, t, Dying(s, now), StalledRanks(s, now).Keys, Downed(s, now), moved);
    EndsLoseWakeUpIff(s, t, ends, all);
    forall g ensures g !in all && Strands(s, g, ends) <==> !Resumes(s, g, now) && Strands(s, g, ends) {
      if Strands(s, g, ends) { ResumesIff(s, w, failures, now, moved, g, Dying(s, now)); }
    }
  }

  lemma ResumesIff(s: QueueState, w: QueueState, failures: seq<Job>, now: Time, moved: set<JobId>, g: JobId, dying: set<JobId>)
    requires AreFailures(s, failures, now) && Ended(s, w, dying, StalledRanks(s, now).Keys)
    requires MovesTheNamed(w, failures, moved) && IsParked(s, g) && g !in dying
    ensures g !in StalledRanks(s, now).Keys + moved <==> !Resumes(s, g, now)
  {
    assert IsLive(s, g) && g !in StalledRanks(s, now) && w.jobs[g] == s.jobs[g] && IsParked(w, g);
    NamedAreParents(s, failures, now, Defer, g);
    NamedAreParents(s, failures, now, Continue, g);
  }
}
