/**
  Finished-job retention: which records an age or count policy evicts.
 */
module Retention {
  import opened Ordering
  import opened JobTypes
  import opened QueueModel
  import opened CoreInvariant
  import opened FanIn

  /** Ids of the finished records in one state. */
  ghost function Finished(s: QueueState, state: JobState): set<JobId>
  {
    set id | id in s.jobs && s.jobs[id].state == state && s.jobs[id].finishedAt.Some?
  }

  /** `a` finished before `b`; jobs that finished together are ordered by id. */
  ghost predicate Older(s: QueueState, a: JobId, b: JobId)
  {
    && a in s.jobs && b in s.jobs && s.jobs[a].finishedAt.Some? && s.jobs[b].finishedAt.Some?
    && (s.jobs[a].finishedAt.value < s.jobs[b].finishedAt.value
        || (s.jobs[a].finishedAt.value == s.jobs[b].finishedAt.value && IdLess(a, b)))
  }

  lemma NewestFirstIsOrdered(s: QueueState, ids: set<JobId>, state: JobState, i: nat, j: nat)
    requires ids <= Finished(s, state)
    requires i < j < |NewestFirst(s, ids, state)|
    ensures var order := NewestFirst(s, ids, state);
            order[i] in ids && order[j] in ids && order[i] != order[j] && Older(s, order[j], order[i])
  {
    var ranks := FinishedRanks(s, state);
    assert Finished(s, state) == ranks.Keys;
    var ascending := Sorted(ranks, ids);
    ReverseContains(ascending);
    var n := |ascending|;
    assert Before(ranks, ascending[n - 1 - j], ascending[n - 1 - i]);
    assert ascending[n - 1 - j] in ascending && ascending[n - 1 - i] in ascending;
  }

  lemma NewestFirstLists(s: QueueState, ids: set<JobId>, state: JobState)
    requires ids <= Finished(s, state)
    ensures |NewestFirst(s, ids, state)| == |ids|
    ensures forall id :: id in NewestFirst(s, ids, state) <==> id in ids
    ensures NoDuplicates(NewestFirst(s, ids, state))
  {
    assert Finished(s, state) == FinishedRanks(s, state).Keys;
    ReverseContains(Sorted(FinishedRanks(s, state), ids));
    SortedLength(FinishedRanks(s, state), ids);
  }

  lemma {:induction false} ElementsSize(s: seq<JobId>)
    requires NoDuplicates(s)
    ensures |Elements(s)| == |s|
    decreases |s|
  {
    if s != [] {
      ElementsSize(s[..|s| - 1]);
      assert s == s[..|s| - 1] + [s[|s| - 1]];
      assert Elements(s) == Elements(s[..|s| - 1]) + {s[|s| - 1]};
    }
  }

  lemma SplitParts(order: seq<JobId>, n: nat)
    requires NoDuplicates(order)
    ensures var first, rest := Elements(Take(order, n)), Elements(Drop(order, n));
            && first + rest == Elements(order) && first !! rest
            && |first| == (if |order| < n then |order| else n)
  {
    assert order == Take(order, n) + Drop(order, n);
    ElementsSize(Take(order, n));
    forall a | a in Drop(order, n) ensures a !in Take(order, n) {
      var j :| 0 <= j < |Drop(order, n)| && Drop(order, n)[j] == a;
      assert order[n + j] == a;
    }
  }

  /** `order` lists finished records, each newer than all after it. */
  ghost predicate Descending(s: QueueState, state: JobState, order: seq<JobId>)
  {
    && (forall id | id in order :: id in Finished(s, state))
    && forall i, j | 0 <= i < j < |order| :: Older(s, order[j], order[i])
  }

  lemma NewestFirstDescends(s: QueueState, ids: set<JobId>, state: JobState)
    requires ids <= Finished(s, state)
    ensures Descending(s, state, NewestFirst(s, ids, state))
  {
    NewestFirstLists(s, ids, state);
    var order := NewestFirst(s, ids, state);
    forall i, j | 0 <= i < j < |order| ensures Older(s, order[j], order[i]) { NewestFirstIsOrdered(s, ids, state, i, j); }
  }

  /** Whatever is dropped from a descending listing is older than whatever is kept. */
  lemma DroppedAreOlder(s: QueueState, state: JobState, order: seq<JobId>, n: nat, a: JobId, b: JobId)
    requires Descending(s, state, order) && a in Drop(order, n) && b in Take(order, n)
    ensures Older(s, a, b)
  {
    var j :| 0 <= j < |Drop(order, n)| && Drop(order, n)[j] == a;
    var i :| 0 <= i < |Take(order, n)| && Take(order, n)[i] == b;
    assert order[n + j] == a && order[i] == b;
  }

  /** The first `n` of a newest-first listing: as many as there are, and all newer than the rest. */
  lemma FirstAreNewest(s: QueueState, ids: set<JobId>, state: JobState, n: nat)
    requires ids <= Finished(s, state)
    ensures ids <= FinishedRanks(s, state).Keys
    ensures var order := NewestFirst(s, ids, state);
            var first, rest := Elements(Take(order, n)), Elements(Drop(order, n));
            && first + rest == ids && first !! rest
            && |first| == (if |ids| < n then |ids| else n)
            && forall a, b | a in rest && b in first :: Older(s, a, b)
  {
    assert Finished(s, state) == FinishedRanks(s, state).Keys;
    NewestFirstLists(s, ids, state);
    NewestFirstDescends(s, ids, state);
    SplitNewest(s, ids, state, NewestFirst(s, ids, state), n);
  }

  lemma SplitNewest(s: QueueState, ids: set<JobId>, state: JobState, order: seq<JobId>, n: nat)
    requires Descending(s, state, order) && NoDuplicates(order) && |order| == |ids| && forall id :: id in order <==> id in ids
    ensures var first, rest := Elements(Take(order, n)), Elements(Drop(order, n));
            && first + rest == ids && first !! rest
            && |first| == (if |ids| < n then |ids| else n)
            && forall a, b | a in rest && b in first :: Older(s, a, b)
  {
    SplitParts(order, n);
    assert Elements(order) == ids;
    forall a, b | a in Elements(Drop(order, n)) && b in Elements(Take(order, n))
      ensures Older(s, a, b)
    {
      DroppedAreOlder(s, state, order, n, a, b);
    }
  }

  lemma FinishedAfterRemoval(s: QueueState, state: JobState, ids: set<JobId>)
    ensures Finished(RemoveAll(s, ids), state) == Finished(s, state) - ids
  {
  }

  /** A retention pass touches no record of another state, and rewrites none. */
  lemma RetentionTouchesOneState(s: QueueState, state: JobState, retention: JobRetention, now: Time)
    ensures var t := ApplyRetention(s, state, retention, now);
            && (forall id | id in t.jobs :: id in s.jobs && t.jobs[id] == s.jobs[id])
            && (forall id | id in s.jobs && s.jobs[id].state != state :: id in t.jobs)
  {
    var aged := AgePass(s, state, retention, now);
    RetentionOnlyRemoves(s, state, retention, now);
    EvictsOnlyFinished(s, state, retention, now);
    RetentionOnlyRemoves(aged, state, retention, now);
    EvictsOnlyFinished(aged, state, retention, now);
  }

  /**
    The age pass evicts expired records only, newest first, at most its limit:
    with no more expired records than that, none is left.
   */
  lemma AgePassEvictsExpired(s: QueueState, state: JobState, retention: JobRetention, now: Time)
    requires retention.age.Some?
    ensures var limit := if retention.limit.Some? then retention.limit.value else 1000;
            var expired := Expired(s, state, Earlier(now, retention.age.value));
            var evicted := Finished(s, state) - Finished(AgePass(s, state, retention, now), state);
            && evicted <= expired
            && |evicted| == (if |expired| < limit then |expired| else limit)
            && forall a, b | a in expired - evicted && b in evicted :: Older(s, a, b)
  {
    var limit := if retention.limit.Some? then retention.limit.value else 1000;
    var expired := Expired(s, state, Earlier(now, retention.age.value));
    ExpiredAreFinished(s, state, Earlier(now, retention.age.value));
    EvictsTheFront(s, state, expired, limit);
    assert AgePass(s, state, retention, now) == RemoveAll(s, Elements(Take(NewestFirst(s, expired, state), limit)));
  }

  lemma ExpiredAreFinished(s: QueueState, state: JobState, cutoff: Time)
    ensures Expired(s, state, cutoff) <= Finished(s, state)
  {
  }

  lemma EvictsTheFront(s: QueueState, state: JobState, ids: set<JobId>, limit: nat)
    requires ids <= Finished(s, state)
    ensures ids <= FinishedRanks(s, state).Keys
    ensures var evicted := Finished(s, state) - Finished(RemoveAll(s, Elements(Take(NewestFirst(s, ids, state), limit))), state);
            && evicted <= ids
            && |evicted| == (if |ids| < limit then |ids| else limit)
            && forall a, b | a in ids - evicted && b in evicted :: Older(s, a, b)
  {
    FirstAreNewest(s, ids, state, limit);
    EvictedAre(s, state, ids, limit);
  }

  /** What is evicted is the front of the listing, what is not is the rest of it. */
  lemma EvictedAre(s: QueueState, state: JobState, ids: set<JobId>, limit: nat)
    requires ids <= Finished(s, state) && ids <= FinishedRanks(s, state).Keys
    requires var order := NewestFirst(s, ids, state);
             Elements(Take(order, limit)) + Elements(Drop(order, limit)) == ids && Elements(Take(order, limit)) !! Elements(Drop(order, limit))
    ensures var order := NewestFirst(s, ids, state);
            var evicted := Finished(s, state) - Finished(RemoveAll(s, Elements(Take(order, limit))), state);
            evicted == Elements(Take(order, limit)) && ids - evicted == Elements(Drop(order, limit))
  {
    var order := NewestFirst(s, ids, state);
    FinishedAfterRemoval(s, state, Elements(Take(order, limit)));
    SetsSplit(Finished(s, state), ids, Elements(Take(order, limit)), Elements(Drop(order, limit)));
  }

  lemma SetsSplit(all: set<JobId>, part: set<JobId>, first: set<JobId>, rest: set<JobId>)
    requires part <= all && first + rest == part && first !! rest
    ensures all - (all - first) == first && part - first == rest
  {
  }

  lemma NewestSurvive(s: QueueState, state: JobState, retention: JobRetention)
    requires retention.count.Some?
    ensures var before, kept := Finished(s, state), Finished(CountPass(s, state, retention), state);
            && kept <= before
            && |kept| == (if |before| < retention.count.value then |before| else retention.count.value)
            && forall a, b | a in before - kept && b in kept :: Older(s, a, b)
  {
    var before := Finished(s, state);
    assert before == FinishedRanks(s, state).Keys;
    FirstAreNewest(s, before, state, retention.count.value);
    var order := NewestFirst(s, before, state);
    var rest := Elements(Drop(order, retention.count.value));
    FinishedAfterRemoval(s, state, rest);
    assert before - rest == Elements(Take(order, retention.count.value));
  }

  /**
    Count-`n` retention leaves exactly the `n` newest of the records the age pass
    left in that state, by finish time and then id, or all of them if fewer.
   */
  lemma CountRetentionKeepsNewest(s: QueueState, state: JobState, retention: JobRetention, now: Time)
    requires retention.count.Some?
    ensures var aged := AgePass(s, state, retention, now);
            var kept := Finished(ApplyRetention(s, state, retention, now), state);
            var before := Finished(aged, state);
            && kept <= before
            && |kept| == (if |before| < retention.count.value then |before| else retention.count.value)
            && forall a, b | a in before - kept && b in kept :: Older(aged, a, b)
  {
    var aged := AgePass(s, state, retention, now);
    NewestSurvive(aged, state, retention);
  }

  // -- Which record goes ------------------------------------------------------------------------

  /** The records of `pool` that finished after `x`. */
  ghost function NewerThan(s: QueueState, pool: set<JobId>, x: JobId): set<JobId>
  {
    set y | y in pool && Older(s, x, y)
  }

  function AgeLimit(retention: JobRetention): nat
  {
    if retention.limit.Some? then retention.limit.value else 1000
  }

  /** Records of one state that ended at `cutoff` or before. */
  ghost function OldEnough(s: QueueState, state: JobState, cutoff: Time): set<JobId>
  {
    set y | y in s.jobs && s.jobs[y].state == state && s.jobs[y].finishedAt.Some? && s.jobs[y].finishedAt.value <= cutoff
  }

  /** `x` is old enough, and few enough of the old ones are newer. */
  ghost predicate AgedOut(s: QueueState, state: JobState, retention: JobRetention, now: Time, x: JobId)
  {
    && retention.age.Some?
    && var aged := OldEnough(s, state, Earlier(now, retention.age.value));
       x in aged && |NewerThan(s, aged, x)| < AgeLimit(retention)
  }

  /** The finished records that are not too old. */
  ghost function NotAgedOut(s: QueueState, state: JobState, retention: JobRetention, now: Time): set<JobId>
  {
    set y | y in Finished(s, state) && !AgedOut(s, state, retention, now, y)
  }

  /** Too many of the records left by the age pass are newer than `x`. */
  ghost predicate CrowdedOut(s: QueueState, state: JobState, retention: JobRetention, now: Time, x: JobId)
  {
    retention.count.Some? && |NewerThan(s, NotAgedOut(s, state, retention, now), x)| >= retention.count.value
  }

  lemma OlderIsStrict(s: QueueState, a: JobId, b: JobId)
    requires Older(s, a, b)
    ensures !Older(s, b, a) && a != b
  {
    if s.jobs[a].finishedAt == s.jobs[b].finishedAt { IdAsymmetric(a, b); }
  }

  /** The newest `n` of a pool are those that fewer than `n` of it are newer than. */
  lemma NewestAreRanked(s: QueueState, pool: set<JobId>, newest: set<JobId>, n: nat, x: JobId)
    requires newest <= pool && |newest| == (if |pool| < n then |pool| else n) && x in pool
    requires forall a, b | a in pool - newest && b in newest :: Older(s, a, b)
    ensures x in newest <==> |NewerThan(s, pool, x)| < n
  {
    var newer := NewerThan(s, pool, x);
    if x in newest {
      forall y | y in newer ensures y in newest && y != x {
        OlderIsStrict(s, x, y);
      }
      SubsetSize(newer, newest - {x});
    } else {
      SubsetSize(newest, newer);
      SubsetSize(newest + {x}, pool);
    }
  }

  lemma SubsetSize(a: set<JobId>, b: set<JobId>)
    requires a <= b
    ensures |a| <= |b|
  {
    assert b == a + (b - a);
  }

  lemma AgePassEvictsIff(s: QueueState, state: JobState, retention: JobRetention, now: Time, x: JobId)
    requires x in Finished(s, state)
    ensures x !in Finished(AgePass(s, state, retention, now), state) <==> AgedOut(s, state, retention, now, x)
  {
    if retention.age.Some? {
      AgePassEvictsExpired(s, state, retention, now);
      var expired := Expired(s, state, Earlier(now, retention.age.value));
      assert expired == OldEnough(s, state, Earlier(now, retention.age.value));
      var evicted := Finished(s, state) - Finished(AgePass(s, state, retention, now), state);
      if x in expired { NewestAreRanked(s, expired, evicted, AgeLimit(retention), x); }
    }
  }

  /** What the age pass leaves, record by record. */
  lemma AgePassLeaves(s: QueueState, state: JobState, retention: JobRetention, now: Time)
    ensures Finished(AgePass(s, state, retention, now), state) == NotAgedOut(s, state, retention, now)
    ensures forall x | x in AgePass(s, state, retention, now).jobs :: x in s.jobs && AgePass(s, state, retention, now).jobs[x] == s.jobs[x]
  {
    forall x | x in Finished(s, state)
      ensures x in Finished(AgePass(s, state, retention, now), state) <==> x in NotAgedOut(s, state, retention, now)
    {
      AgePassEvictsIff(s, state, retention, now, x);
    }
  }

  /** Removing records leaves the age of the others. */
  lemma SameAges(s: QueueState, t: QueueState, pool: set<JobId>, x: JobId)
    requires x in t.jobs && x in s.jobs && t.jobs[x] == s.jobs[x]
    requires forall y | y in pool :: y in t.jobs && y in s.jobs && t.jobs[y] == s.jobs[y]
    ensures NewerThan(t, pool, x) == NewerThan(s, pool, x)
  {
  }

  /**
    Retention, record by record: a finished record is evicted if and only if it
    is among the newest expired ones the age pass may take, or as many newer
    ones as the count allows are left.
   */
  lemma EvictedIff(s: QueueState, state: JobState, retention: JobRetention, now: Time, x: JobId)
    requires x in Finished(s, state)
    ensures x !in ApplyRetention(s, state, retention, now).jobs
       <==> AgedOut(s, state, retention, now, x) || CrowdedOut(s, state, retention, now, x)
  {
    var aged := AgePass(s, state, retention, now);
    var t := ApplyRetention(s, state, retention, now);
    AgePassEvictsIff(s, state, retention, now, x);
    AgePassLeaves(s, state, retention, now);
    RetentionTouchesOneState(s, state, retention, now);
    CountPassOnlyRemoves(aged, state, retention);
    if x in Finished(aged, state) && retention.count.Some? {
      NewestSurvive(aged, state, retention);
      NewestAreRanked(aged, Finished(aged, state), Finished(t, state), retention.count.value, x);
      SameAges(s, aged, Finished(aged, state), x);
    }
  }

  lemma CountPassOnlyRemoves(s: QueueState, state: JobState, retention: JobRetention)
    ensures var t := CountPass(s, state, retention);
            forall x | x in t.jobs :: x in s.jobs && t.jobs[x] == s.jobs[x]
  {
  }

  /** In reachable states the finished records of a terminal state are all of that state's jobs. */
  lemma FinishedAreTheTerminal(s: QueueState, state: JobState)
    requires Core(s)
    ensures state.IsTerminal() ==> Finished(s, state) == set id | id in s.jobs && s.jobs[id].state == state
    ensures !state.IsTerminal() ==> Finished(s, state) == {}
  {
    forall id | id in s.jobs ensures s.jobs[id].finishedAt.Some? <==> s.jobs[id].state.IsTerminal() {
      assert WellFormedJob(id, s.jobs[id]);
    }
  }
}
