/**
  When the queue turns a flow away: a child another stored parent has, or one
  the parent lists but lost; two newcomers for one deduplication id; a series
  that is live already or wanted twice.
 */
module FlowRefusals {
  import opened Ordering
  import opened JobTypes
  import opened QueueModel
  import opened CoreInvariant
  import opened Operations
  import opened CompletionOutcomes
  import opened ManagementOutcomes
  import opened SubmissionOutcomes
  import opened Admission
  import opened FlowOutcomes

  /** What a submitted child asks for: an id, perhaps a deduplication id, perhaps a series. */
  datatype Newcomer = Newcomer(id: JobId, deduplication: Option<string>, series: Option<string>)

  function NewcomerOf(queue: string, spec: JobSpec, uuid: JobId): Newcomer
  {
    Newcomer(SubmittedId(spec, uuid),
             match spec.options.deduplication case Some(d) => Some(d.id) case None => None,
             SeriesOf(queue, spec))
  }

  function NewcomersOf(queue: string, specs: seq<JobSpec>, uuids: seq<JobId>): (all: seq<Newcomer>)
    requires |specs| == |uuids|
    ensures |all| == |specs| && forall k | 0 <= k < |specs| :: all[k] == NewcomerOf(queue, specs[k], uuids[k])
  {
    seq(|specs|, k requires 0 <= k < |specs| => NewcomerOf(queue, specs[k], uuids[k]))
  }

  // -- Reasons ----------------------------------------------------------------------------------------

  /** The stored job `c` has another stored parent than `p`. */
  predicate IsTaken(s: QueueState, p: JobId, c: JobId)
  {
    c in s.jobs && s.jobs[c].parentId.Some? && s.jobs[c].parentId.value != p && s.jobs[c].parentId.value in s.jobs
  }

  /** `p` lists `c`, which is no stored child of `p` any more. */
  predicate IsLost(s: QueueState, p: JobId, listed: seq<JobId>, c: JobId)
  {
    c in listed && !(c in s.jobs && s.jobs[c].parentId == Some(p))
  }

  function RefusalOf(s: QueueState, p: JobId, c: JobId): LaneError { if IsTaken(s, p, c) then JobStateConflict else ConfigError }

  ghost predicate IsFirstRefused(s: QueueState, p: JobId, listed: seq<JobId>, all: seq<Newcomer>, k: int)
  {
    && 0 <= k < |all| && (IsTaken(s, p, all[k].id) || IsLost(s, p, listed, all[k].id))
    && forall i | 0 <= i < k :: !IsTaken(s, p, all[i].id) && !IsLost(s, p, listed, all[i].id)
  }

  ghost predicate IsFree(s: QueueState, d: string, now: Time) { forall x :: !Occupies(s, x, d, now) }

  /** A new job joins the flow unless somebody owns its deduplication id. */
  ghost predicate Joins(s: QueueState, c: Newcomer, now: Time)
  {
    c.id !in s.jobs && (c.deduplication.Some? ==> IsFree(s, c.deduplication.value, now))
  }

  /** Two that join want one deduplication id, or one of them wants an id among `held`. */
  ghost predicate DoublesId(s: QueueState, all: seq<Newcomer>, held: set<string>, now: Time)
  {
    exists j :: 0 <= j < |all| && Joins(s, all[j], now) && all[j].deduplication.Some?
      && (all[j].deduplication.value in held
          || exists i :: 0 <= i < j && Joins(s, all[i], now) && all[i].deduplication == all[j].deduplication)
  }

  /** One that joins, or the root, wants a series that is live, or two of them want the same. */
  ghost predicate DoublesSeries(s: QueueState, all: seq<Newcomer>, held: Option<string>, now: Time)
  {
    || (held.Some? && exists x :: Occurs(s, x, held.value))
    || exists j :: 0 <= j < |all| && Joins(s, all[j], now) && all[j].series.Some?
         && (all[j].series == held || (exists x :: Occurs(s, x, all[j].series.value))
             || exists i :: 0 <= i < |all| && i != j && Joins(s, all[i], now) && all[i].series == all[j].series)
  }

  /** The answer to `all` joining `p`, which lists `listed`; the root, if new, holds `ids` and `series`. */
  ghost predicate Decides<T>(s: QueueState, o: Out<Result<T>>, p: JobId, listed: seq<JobId>, all: seq<Newcomer>, ids: set<string>, series: Option<string>, now: Time)
  {
    if exists k :: IsFirstRefused(s, p, listed, all, k) then
      exists k :: IsFirstRefused(s, p, listed, all, k)
        && o == Out(s, Err(RefusalOf(s, p, all[k].id)))
    else if DoublesId(s, all, ids, now) || DoublesSeries(s, all, series, now) then o.reply == Err(ConfigError)
    else o.reply.Ok?
  }

  // -- Children on record -----------------------------------------------------------------------------

  /** A job as it is submitted, seen as a newcomer. */
  function Seen(job: Job): Newcomer
  {
    Newcomer(job.id, DeduplicationId(job), job.repeatKey)
  }

  function SeenAll(jobs: seq<Job>): (all: seq<Newcomer>)
    ensures |all| == |jobs| && forall k | 0 <= k < |jobs| :: all[k] == Seen(jobs[k])
  {
    seq(|jobs|, k requires 0 <= k < |jobs| => Seen(jobs[k]))
  }

  /** A job that owns its deduplication id and its series as soon as it is stored, and would if extended. */
  predicate IsFresh(job: Job, now: Time)
  {
    && !job.state.IsTerminal() && (job.deduplicationExpiresAt.Some? ==> now < job.deduplicationExpiresAt.value)
    && (job.options.deduplication.Some? ==> job.options.deduplication.value.ttl != Some(0))
  }

  predicate AreFresh(jobs: seq<Job>, now: Time) { forall k | 0 <= k < |jobs| :: IsFresh(jobs[k], now) }

  lemma {:induction false} FirstRefusal(s: QueueState, p: JobId, listed: seq<JobId>, children: seq<Job>)
    ensures match FirstConflict(s, p, listed, children)
            case None => forall k :: !IsFirstRefused(s, p, listed, SeenAll(children), k)
            case Some(e) => exists k :: IsFirstRefused(s, p, listed, SeenAll(children), k) && e == RefusalOf(s, p, children[k].id)
    decreases |children|
  {
    if children != [] {
      var n := |children| - 1;
      FirstRefusal(s, p, listed, children[..n]);
      RefusalNext(s, p, listed, children);
    }
  }

  lemma RefusalNext(s: QueueState, p: JobId, listed: seq<JobId>, children: seq<Job>)
    requires children != []
    ensures var n := |children| - 1;
            var refused := IsTaken(s, p, children[n].id) || IsLost(s, p, listed, children[n].id);
            && (forall k | k < n :: IsFirstRefused(s, p, listed, SeenAll(children), k) <==> IsFirstRefused(s, p, listed, SeenAll(children[..n]), k))
            && (refused && (forall k :: !IsFirstRefused(s, p, listed, SeenAll(children[..n]), k)) ==> IsFirstRefused(s, p, listed, SeenAll(children), n))
            && (IsFirstRefused(s, p, listed, SeenAll(children), n) ==> refused)
  {
    var n := |children| - 1;
    assert forall i | 0 <= i < n :: SeenAll(children)[i] == SeenAll(children[..n])[i];
    NobodyIsFirst(s, p, listed, SeenAll(children[..n]), n);
  }

  /** Without a first refusal there is none. */
  lemma {:induction false} NobodyIsFirst(s: QueueState, p: JobId, listed: seq<JobId>, all: seq<Newcomer>, n: nat)
    requires n <= |all|
    ensures (forall k | 0 <= k < n :: !IsFirstRefused(s, p, listed, all, k))
        ==> forall k | 0 <= k < n :: !IsTaken(s, p, all[k].id) && !IsLost(s, p, listed, all[k].id)
  {
    if n > 0 {
      NobodyIsFirst(s, p, listed, all, n - 1);
      if forall k | 0 <= k < n :: !IsFirstRefused(s, p, listed, all, k) { assert !IsFirstRefused(s, p, listed, all, n - 1); }
    }
  }

  // -- Deduplication ids --------------------------------------------------------------------------------

  /** Nobody gained or lost a deduplication id or a series, and nobody came or went. */
  ghost predicate SameOwners(s: QueueState, u: QueueState, now: Time)
  {
    && u.jobs.Keys == s.jobs.Keys
    && (forall x, d :: Occupies(u, x, d, now) <==> Occupies(s, x, d, now))
    && (forall x, key :: Occurs(u, x, key) <==> Occurs(s, x, key))
  }

  /** The scan's books after `children`, where `taken` was taken before. */
  ghost predicate Booked(s: QueueState, scan: Scan, children: seq<Job>, taken: set<string>, now: Time)
  {
    && (forall e :: e in scan.taken <==> e in taken || exists k :: 0 <= k < |children| && Joins(s, Seen(children[k]), now) && DeduplicationId(children[k]) == Some(e))
    && (forall x :: x in scan.skipped <==> exists k :: 0 <= k < |children| && children[k].id == x && x !in s.jobs && !Joins(s, Seen(children[k]), now))
  }

  lemma {:induction false} BooksSay(s: QueueState, children: seq<Job>, taken: set<string>, now: Time)
    requires AreFresh(children, now)
    ensures var scan := ScanDeduplication(s, children, taken, now);
            && SameOwners(s, scan.state, now) && (scan.conflict <==> DoublesId(s, SeenAll(children), taken, now))
            && (!scan.conflict ==> Booked(s, scan, children, taken, now))
    decreases |children|
  {
    if children != [] {
      var n := |children| - 1;
      var before := ScanDeduplication(s, children[..n], taken, now);
      BooksSay(s, children[..n], taken, now);
      ScanGoesOn(s, before, children, taken, now);
    }
  }

  lemma ScanGoesOn(s: QueueState, before: Scan, children: seq<Job>, taken: set<string>, now: Time)
    requires children != [] && AreFresh(children, now) && SameOwners(s, before.state, now)
    requires before.conflict <==> DoublesId(s, SeenAll(children[..|children| - 1]), taken, now)
    requires !before.conflict ==> Booked(s, before, children[..|children| - 1], taken, now)
    ensures var scan := ScanChild(before, children[|children| - 1], now);
            && SameOwners(s, scan.state, now) && (scan.conflict <==> DoublesId(s, SeenAll(children), taken, now))
            && (!scan.conflict ==> Booked(s, scan, children, taken, now))
  {
    var n := |children| - 1;
    ScanNextSays(s, before, children[n], now);
    DoublesNext(s, children, taken, now);
    if !before.conflict { BookedNext(s, before, children, taken, now); }
  }

  lemma ScanNextSays(s: QueueState, before: Scan, child: Job, now: Time)
    requires SameOwners(s, before.state, now) && IsFresh(child, now)
    ensures var scan, d := ScanChild(before, child, now), DeduplicationId(child);
            && SameOwners(s, scan.state, now)
            && (before.conflict ==> scan.conflict)
            && (!before.conflict ==> (scan.conflict <==> d.Some? && Joins(s, Seen(child), now) && d.value in before.taken))
            && (!scan.conflict ==>
                  && scan.taken == (if d.Some? && Joins(s, Seen(child), now) then before.taken + {d.value} else before.taken)
                  && scan.skipped == (if child.id !in s.jobs && !Joins(s, Seen(child), now) then before.skipped + {child.id} else before.skipped))
  {
    var d := DeduplicationId(child);
    if d.Some? {
      FoundIffOccupied(before.state, d.value, now);
      if !before.conflict && child.id !in s.jobs && Find(before.state, DeduplicationOwners(before.state, d.value, now)).Some? {
        ExtensionKeepsOwners(before.state, child, Find(before.state, DeduplicationOwners(before.state, d.value, now)).value, d.value, now);
      }
    }
  }

  lemma FoundIffOccupied(s: QueueState, d: string, now: Time)
    ensures Find(s, DeduplicationOwners(s, d, now)).None? <==> IsFree(s, d, now)
    ensures Find(s, DeduplicationOwners(s, d, now)).Some? ==> Occupies(s, Find(s, DeduplicationOwners(s, d, now)).value, d, now)
  {
    forall x ensures x in DeduplicationOwners(s, d, now) <==> Occupies(s, x, d, now) { OwnersOccupy(s, x, d, now); }
    if x :| Occupies(s, x, d, now) { assert x in DeduplicationOwners(s, d, now); }
  }

  lemma ExtensionKeepsOwners(s: QueueState, child: Job, x: JobId, d: string, now: Time)
    requires IsFresh(child, now) && DeduplicationId(child) == Some(d) && Occupies(s, x, d, now)
    ensures SameOwners(s, ExtendExpiration(s, child, x, now), now)
  {
  }

  /** The last child wants an id that is taken, by another that joins if not before. */
  ghost predicate LastDoubles(s: QueueState, children: seq<Job>, taken: set<string>, now: Time)
    requires children != []
  {
    var n := |children| - 1;
    && DeduplicationId(children[n]).Some? && Joins(s, Seen(children[n]), now)
    && (DeduplicationId(children[n]).value in taken
        || exists i :: 0 <= i < n && Joins(s, Seen(children[i]), now) && DeduplicationId(children[i]) == DeduplicationId(children[n]))
  }

  lemma DoublesNext(s: QueueState, children: seq<Job>, taken: set<string>, now: Time)
    requires children != []
    ensures DoublesId(s, SeenAll(children), taken, now)
       <==> DoublesId(s, SeenAll(children[..|children| - 1]), taken, now) || LastDoubles(s, children, taken, now)
  {
    var n := |children| - 1;
    var all, some := SeenAll(children), SeenAll(children[..n]);
    assert all[n] == Seen(children[n]) && forall i | 0 <= i < n :: all[i] == some[i] == Seen(children[i]);
    if DoublesId(s, some, taken, now) {
      var j :| 0 <= j < |some| && Joins(s, some[j], now) && some[j].deduplication.Some?
        && (some[j].deduplication.value in taken || exists i :: 0 <= i < j && Joins(s, some[i], now) && some[i].deduplication == some[j].deduplication);
      assert Joins(s, all[j], now);
    }
  }

  lemma BookedNext(s: QueueState, before: Scan, children: seq<Job>, taken: set<string>, now: Time)
    requires children != [] && AreFresh(children, now) && SameOwners(s, before.state, now) && !before.conflict
    requires Booked(s, before, children[..|children| - 1], taken, now)
    ensures var scan := ScanChild(before, children[|children| - 1], now); !scan.conflict ==> Booked(s, scan, children, taken, now)
  {
    var n := |children| - 1;
    var scan := ScanChild(before, children[n], now);
    ScanNextSays(s, before, children[n], now);
    if !scan.conflict { BooksGoOn(s, before, scan, children, taken, now); }
  }

  /** The last child's entry in the books. */
  lemma BooksGoOn(s: QueueState, before: Scan, scan: Scan, children: seq<Job>, taken: set<string>, now: Time)
    requires children != [] && Booked(s, before, children[..|children| - 1], taken, now)
    requires var child := children[|children| - 1];
             && scan.taken == (if DeduplicationId(child).Some? && Joins(s, Seen(child), now) then before.taken + {DeduplicationId(child).value} else before.taken)
             && scan.skipped == (if child.id !in s.jobs && !Joins(s, Seen(child), now) then before.skipped + {child.id} else before.skipped)
    ensures Booked(s, scan, children, taken, now)
  {
    assert forall i | 0 <= i < |children| - 1 :: children[..|children| - 1][i] == children[i];
  }

  // -- Series ---------------------------------------------------------------------------------------------

  /** Pairwise distinct ids. */
  predicate HaveOwnIds(jobs: seq<Job>) { forall i, j | 0 <= i < j < |jobs| :: jobs[i].id != jobs[j].id }

  lemma {:induction false} UnskippedAre(children: seq<Job>, skipped: set<JobId>)
    requires HaveOwnIds(children)
    ensures HaveOwnIds(Unskipped(children, skipped))
    ensures forall c :: c in Unskipped(children, skipped) <==> c in children && c.id !in skipped
    decreases |children|
  {
    if children != [] {
      assert children == children[..|children| - 1] + [children[|children| - 1]];
      UnskippedAre(children[..|children| - 1], skipped);
    }
  }

  lemma {:induction false} UnstoredAre(u: QueueState, children: seq<Job>)
    requires HaveOwnIds(children)
    ensures HaveOwnIds(Unstored(u, children))
    ensures forall c :: c in Unstored(u, children) <==> c in children && c.id !in u.jobs
    decreases |children|
  {
    if children != [] {
      assert children == children[..|children| - 1] + [children[|children| - 1]];
      UnstoredAre(u, children[..|children| - 1]);
    }
  }

  /** Free and distinct keys. */
  ghost predicate WantFreeSeries(u: QueueState, jobs: seq<Job>)
  {
    && (forall c | c in jobs && c.repeatKey.Some? :: forall x :: !Occurs(u, x, c.repeatKey.value))
    && (forall a, b | a in jobs && b in jobs && a.id != b.id && a.repeatKey.Some? :: a.repeatKey != b.repeatKey)
  }

  lemma KeysFreeIff(u: QueueState, jobs: seq<Job>)
    requires HaveOwnIds(jobs) && forall c | c in jobs :: !c.state.IsTerminal()
    ensures RepeatKeysFree(u, jobs) <==> WantFreeSeries(u, jobs)
  {
    assert forall k | 0 <= k < |jobs| :: jobs[k] in jobs && ActiveRepeatKey(jobs[k]) == jobs[k].repeatKey;
    forall k | 0 <= k < |jobs| && jobs[k].repeatKey.Some?
      ensures RepeatOwners(u, jobs[k].repeatKey.value) == {} <==> forall x :: !Occurs(u, x, jobs[k].repeatKey.value)
    {
      NobodyOccurs(u, jobs[k].repeatKey.value);
    }
    if RepeatKeysFree(u, jobs) {
      DistinctKeys(u, jobs);
      forall c | c in jobs && c.repeatKey.Some? ensures forall x :: !Occurs(u, x, c.repeatKey.value) {
        var k :| 0 <= k < |jobs| && jobs[k] == c;
      }
    }
  }

  lemma DistinctKeys(u: QueueState, jobs: seq<Job>)
    requires forall c | c in jobs :: !c.state.IsTerminal()
    requires RepeatKeysFree(u, jobs)
    ensures forall a, b | a in jobs && b in jobs && a.id != b.id && a.repeatKey.Some? :: a.repeatKey != b.repeatKey
  {
    forall a, b | a in jobs && b in jobs && a.id != b.id && a.repeatKey.Some? ensures a.repeatKey != b.repeatKey {
      var i :| 0 <= i < |jobs| && jobs[i] == a;
      var j :| 0 <= j < |jobs| && jobs[j] == b;
    }
  }

  lemma NobodyOccurs(s: QueueState, key: string)
    ensures RepeatOwners(s, key) == {} <==> forall x :: !Occurs(s, x, key)
  {
    forall x ensures x in RepeatOwners(s, key) <==> Occurs(s, x, key) { RepeatOwnersOccur(s, x, key); }
  }

  /** Once scanned, exactly those that join are left to be stored. */
  lemma LeftAreJoining(s: QueueState, u: QueueState, scan: Scan, children: seq<Job>, taken: set<string>, now: Time)
    requires HaveOwnIds(children) && u.jobs.Keys == s.jobs.Keys && Booked(s, scan, children, taken, now)
    ensures var left := Unstored(u, Unskipped(children, scan.skipped));
            HaveOwnIds(left) && forall c :: c in left <==> c in children && Joins(s, Seen(c), now)
  {
    UnskippedAre(children, scan.skipped);
    UnstoredAre(u, Unskipped(children, scan.skipped));
    forall c | c in children && c.id !in u.jobs ensures c.id in scan.skipped <==> !Joins(s, Seen(c), now) {
      var k :| 0 <= k < |children| && children[k] == c;
      if c.id in scan.skipped {
        var i :| 0 <= i < |children| && children[i].id == c.id && !Joins(s, Seen(children[i]), now);
        assert i == k;
      }
    }
  }

  /** The series that a root's record, if there is one, would hold. */
  function HeldSeries(root: seq<Job>): Option<string> { if root == [] then None else root[0].repeatKey }

  lemma SeriesDecide(s: QueueState, u: QueueState, root: seq<Job>, left: seq<Job>, children: seq<Job>, now: Time)
    requires SameOwners(s, u, now) && |root| <= 1 && HaveOwnIds(root + left) && HaveOwnIds(children)
    requires forall c :: c in left <==> c in children && Joins(s, Seen(c), now)
    requires forall c | c in root + left :: !c.state.IsTerminal()
    ensures RepeatKeysFree(u, root + left) <==> !DoublesSeries(s, SeenAll(children), HeldSeries(root), now)
  {
    KeysFreeIff(u, root + left);
    if WantFreeSeries(u, root + left) {
      NoSeriesDoubled(s, u, root, left, children, now);
    } else if !DoublesSeries(s, SeenAll(children), HeldSeries(root), now) {
      SeriesAreFree(s, u, root, left, children, now);
    }
  }

  lemma NoSeriesDoubled(s: QueueState, u: QueueState, root: seq<Job>, left: seq<Job>, children: seq<Job>, now: Time)
    requires SameOwners(s, u, now) && |root| <= 1 && HaveOwnIds(root + left) && HaveOwnIds(children)
    requires forall c :: c in left <==> c in children && Joins(s, Seen(c), now)
    requires WantFreeSeries(u, root + left)
    ensures !DoublesSeries(s, SeenAll(children), HeldSeries(root), now)
  {
    var all := SeenAll(children);
    if root != [] { assert root[0] in root + left; }
    forall j | 0 <= j < |all| && Joins(s, all[j], now) && all[j].series.Some?
      ensures all[j].series != HeldSeries(root) && !(exists x :: Occurs(s, x, all[j].series.value))
      ensures !exists i :: 0 <= i < |all| && i != j && Joins(s, all[i], now) && all[i].series == all[j].series
    {
      assert children[j] in left && children[j] in root + left;
      if root != [] {
        var m :| 0 <= m < |left| && left[m] == children[j];
        assert (root + left)[0] == root[0] && (root + left)[m + 1] == children[j];
      }
      forall i | 0 <= i < |all| && i != j && Joins(s, all[i], now) ensures all[i].series != all[j].series {
        assert children[i] in left && children[i] in root + left;
      }
    }
  }

  /** What nobody doubling a series means for one that joins. */
  lemma OwnSeries(s: QueueState, children: seq<Job>, held: Option<string>, a: Job, now: Time)
    requires !DoublesSeries(s, SeenAll(children), held, now) && a in children && Joins(s, Seen(a), now) && a.repeatKey.Some?
    ensures a.repeatKey != held && forall x :: !Occurs(s, x, a.repeatKey.value)
    ensures forall b | b in children && Joins(s, Seen(b), now) && b.id != a.id :: b.repeatKey != a.repeatKey
  {
    var all := SeenAll(children);
    var j :| 0 <= j < |children| && children[j] == a;
    assert Joins(s, all[j], now) && all[j].series.Some?;
    forall b | b in children && Joins(s, Seen(b), now) && b.id != a.id ensures b.repeatKey != a.repeatKey {
      var i :| 0 <= i < |children| && children[i] == b;
      assert Joins(s, all[i], now) && i != j;
    }
  }

  lemma SeriesAreFree(s: QueueState, u: QueueState, root: seq<Job>, left: seq<Job>, children: seq<Job>, now: Time)
    requires SameOwners(s, u, now) && |root| <= 1 && HaveOwnIds(root + left)
    requires forall c :: c in left <==> c in children && Joins(s, Seen(c), now)
    requires !DoublesSeries(s, SeenAll(children), HeldSeries(root), now)
    ensures WantFreeSeries(u, root + left)
  {
    forall c | c in root + left && c.repeatKey.Some? ensures forall x :: !Occurs(u, x, c.repeatKey.value) {
      if c in left { OwnSeries(s, children, HeldSeries(root), c, now); }
    }
    forall a, b | a in root + left && b in root + left && a.id != b.id && a.repeatKey.Some? ensures a.repeatKey != b.repeatKey {
      if a in left {
        OwnSeries(s, children, HeldSeries(root), a, now);
      } else if b in left && b.repeatKey.Some? {
        OwnSeries(s, children, HeldSeries(root), b, now);
      }
    }
  }

  // -- The decision -----------------------------------------------------------------------------------------

  /** The series decide once the ids are settled. */
  lemma ScannedDecides(s: QueueState, root: seq<Job>, children: seq<Job>, taken: set<string>, now: Time)
    requires AreFresh(children, now) && |root| <= 1 && HaveOwnIds(root + children) && forall c | c in root :: !c.state.IsTerminal()
    ensures var scan := ScanDeduplication(s, children, taken, now);
            var left := Unstored(scan.state, Unskipped(children, scan.skipped));
            && (scan.conflict <==> DoublesId(s, SeenAll(children), taken, now))
            && (!scan.conflict ==> (RepeatKeysFree(scan.state, root + left) <==> !DoublesSeries(s, SeenAll(children), HeldSeries(root), now)))
  {
    var scan := ScanDeduplication(s, children, taken, now);
    BooksSay(s, children, taken, now);
    RestHasOwnIds(root, children);
    if !scan.conflict {
      var left := Unstored(scan.state, Unskipped(children, scan.skipped));
      LeftAreJoining(s, scan.state, scan, children, taken, now);
      RootedHaveOwnIds(root, children, left);
      SeriesDecide(s, scan.state, root, left, children, now);
    }
  }

  lemma RestHasOwnIds(root: seq<Job>, children: seq<Job>)
    requires HaveOwnIds(root + children)
    ensures HaveOwnIds(children) && forall a, b | a in root && b in children :: a.id != b.id
  {
    var both := root + children;
    forall i, j | 0 <= i < j < |children| ensures children[i].id != children[j].id {
      assert both[|root| + i] == children[i] && both[|root| + j] == children[j];
    }
    forall i, j | 0 <= i < |root| && 0 <= j < |children| ensures root[i].id != children[j].id {
      assert both[i] == root[i] && both[|root| + j] == children[j];
    }
  }

  lemma RootedHaveOwnIds(root: seq<Job>, children: seq<Job>, left: seq<Job>)
    requires |root| <= 1 && HaveOwnIds(left) && (forall c | c in left :: c in children) && forall a, b | a in root && b in children :: a.id != b.id
    ensures HaveOwnIds(root + left)
  {
    var both := root + left;
    forall i, j | 0 <= i < j < |both| ensures both[i].id != both[j].id {
      assert both[j] in left;
      if root != [] && i == 0 { assert both[0] in root; }
    }
  }

  /** Without a root of its own a flow is decided by its children alone. */
  lemma ChildrenDecide(s: QueueState, children: seq<Job>, now: Time)
    requires AreFresh(children, now) && HaveOwnIds(children)
    ensures var scan := ScanDeduplication(s, children, {}, now);
            && (scan.conflict <==> DoublesId(s, SeenAll(children), {}, now))
            && (!scan.conflict ==>
                  (RepeatKeysFree(scan.state, Unstored(scan.state, Unskipped(children, scan.skipped))) <==> !DoublesSeries(s, SeenAll(children), None, now)))
  {
    var scan := ScanDeduplication(s, children, {}, now);
    NoRoot(children);
    NoRoot(Unstored(scan.state, Unskipped(children, scan.skipped)));
    ScannedDecides(s, [], children, {}, now);
  }

  lemma NoRoot(jobs: seq<Job>)
    ensures [] + jobs == jobs
  {
  }

  lemma ExistingDecides(s: QueueState, p: JobId, children: seq<Job>, now: Time)
    requires p in s.jobs && AreFresh(children, now) && HaveOwnIds(children)
    ensures Decides(s, AddFlowToExisting(s, p, children, now), p, s.jobs[p].childIds, SeenAll(children), {}, None, now)
  {
    FirstRefusal(s, p, s.jobs[p].childIds, children);
    ChildrenDecide(s, children, now);
  }

  lemma ParkedDecides(s: QueueState, p: JobId, children: seq<Job>, now: Time)
    requires p in s.jobs && AreFresh(children, now) && HaveOwnIds(children)
    ensures Decides(s, ParkBehind(s, p, children, now), p, s.jobs[p].childIds, SeenAll(children), {}, None, now)
  {
    FirstRefusal(s, p, s.jobs[p].childIds, children);
    ChildrenDecide(s, children, now);
  }

  function HeldId(spec: JobSpec): set<string>
  {
    match spec.options.deduplication case Some(d) => {d.id} case None => {}
  }

  lemma NewDecides(s: QueueState, parent: Job, children: seq<Job>, now: Time)
    requires IsFresh(parent, now) && AreFresh(children, now) && HaveOwnIds([parent] + children) && FindDeduplicationOwner(s, parent, now).None?
    ensures Decides(s, AddNewFlow(s, parent, children, now), parent.id, [], SeenAll(children),
                    if DeduplicationId(parent).Some? then {DeduplicationId(parent).value} else {}, parent.repeatKey, now)
  {
    var held := if DeduplicationId(parent).Some? then {DeduplicationId(parent).value} else {};
    FirstRefusal(s, parent.id, [], children);
    var scan := ScanDeduplication(s, children, held, now);
    var root := RootJob(parent, Unskipped(children, scan.skipped), now);
    SameIdsAreOwn(parent, root, children);
    ScannedDecides(s, [root], children, held, now);
  }

  lemma SameIdsAreOwn(parent: Job, root: Job, children: seq<Job>)
    requires root.id == parent.id && HaveOwnIds([parent] + children)
    ensures HaveOwnIds([root] + children)
  {
    forall i, j | 0 <= i < j < |[root] + children| ensures ([root] + children)[i].id != ([root] + children)[j].id {
      assert ([parent] + children)[i].id == ([root] + children)[i].id && ([parent] + children)[j].id == ([root] + children)[j].id;
    }
  }

  /** Every child may be submitted, under its own id. */
  ghost predicate MayJoin(p: JobId, specs: seq<JobSpec>, uuids: seq<JobId>, now: Time)
    requires |specs| == |uuids|
  {
    && (forall k | 0 <= k < |specs| :: MayBeSubmitted(specs[k].options, now))
    && NoDuplicates([p] + SubmittedIds(specs, uuids))
  }

  lemma SubmittedAreValidIff(specs: seq<JobSpec>, now: Time)
    ensures (forall k | 0 <= k < |specs| :: specs[k].options.ValidAt(now)) <==> forall k | 0 <= k < |specs| :: MayBeSubmitted(specs[k].options, now)
  {
    forall k | 0 <= k < |specs| ensures specs[k].options.ValidAt(now) <==> MayBeSubmitted(specs[k].options, now) {
      OptionsAreValidIff(specs[k].options, now);
    }
  }

  lemma SubmittedIsSeen(queue: string, p: JobId, spec: JobSpec, uuid: JobId, now: Time)
    ensures var job := NewJob(queue, spec, uuid, now);
            Seen(job.(parentId := Some(p))) == Seen(job) == NewcomerOf(queue, spec, uuid)
            && (spec.options.ValidAt(now) ==> IsFresh(job, now) && IsFresh(job.(parentId := Some(p)), now))
  {
    NewJobIsSubmitted(queue, spec, uuid, now);
  }

  lemma SubmittedAreSeen(queue: string, p: JobId, specs: seq<JobSpec>, uuids: seq<JobId>, now: Time)
    requires |specs| == |uuids|
    ensures var children := ChildJobs(queue, p, specs, uuids, now);
            SeenAll(children) == NewcomersOf(queue, specs, uuids) && Ids(children) == SubmittedIds(specs, uuids)
  {
    var children := ChildJobs(queue, p, specs, uuids, now);
    forall k | 0 <= k < |specs| ensures Seen(children[k]) == NewcomerOf(queue, specs[k], uuids[k]) {
      SubmittedIsSeen(queue, p, specs[k], uuids[k], now);
    }
  }

  lemma SubmittedAreFresh(queue: string, p: JobId, specs: seq<JobSpec>, uuids: seq<JobId>, now: Time)
    requires |specs| == |uuids| && MayJoin(p, specs, uuids, now)
    ensures var children := ChildJobs(queue, p, specs, uuids, now); AreFresh(children, now) && HaveOwnIds(children)
  {
    var children := ChildJobs(queue, p, specs, uuids, now);
    SubmittedAreValidIff(specs, now);
    SubmittedAreSeen(queue, p, specs, uuids, now);
    forall k | 0 <= k < |specs| ensures IsFresh(children[k], now) { SubmittedIsSeen(queue, p, specs[k], uuids[k], now); }
    ChildrenHaveOwnIds(p, children);
  }

  lemma ChildrenHaveOwnIds(p: JobId, children: seq<Job>)
    requires NoDuplicates([p] + Ids(children))
    ensures HaveOwnIds(children) && forall c | c in children :: c.id != p
  {
    var ids := [p] + Ids(children);
    forall i, j | 0 <= i < j < |children| ensures children[i].id != children[j].id {
      assert ids[i + 1] == children[i].id && ids[j + 1] == children[j].id;
    }
    forall k | 0 <= k < |children| ensures children[k].id != p { assert ids[0] == p && ids[k + 1] == children[k].id; }
  }

  /** Who holds a parent none of whose children is unforgiven may park it behind more, unless one of them is refused. */
  lemma ParkingDecides(s: QueueState, p: JobId, token: Token, specs: seq<JobSpec>, uuids: seq<JobId>, now: Time)
    requires Core(s) && |specs| == |uuids|
    ensures var o := AddFlowChildren(s, p, token, specs, uuids, now);
            if specs == [] || !MayJoin(p, specs, uuids, now) then o == Out(s, Err(ConfigError))
            else if p !in s.jobs then o == Out(s, Err(JobNotFound))
            else if s.jobs[p].state != Active then o == Out(s, Err(JobStateConflict))
            else if s.jobs[p].lockToken != Some(token) then o == Out(s, Err(JobLeaseConflict))
            else if exists c :: c in s.jobs[p].childIds && IsUnforgiven(s, p, c) then o == Out(s, Err(JobStateConflict))
            else Decides(s, o, p, s.jobs[p].childIds, NewcomersOf(s.queue, specs, uuids), {}, None, now)
  {
    SubmittedAreValidIff(specs, now);
    SubmittedAreSeen(s.queue, p, specs, uuids, now);
    if p in s.jobs {
      FailuresAreUnforgiven(s, p);
      if MayJoin(p, specs, uuids, now) {
        SubmittedAreFresh(s.queue, p, specs, uuids, now);
        ParkedDecides(s, p, ChildJobs(s.queue, p, specs, uuids, now), now);
      }
    }
  }

  /** The flow that already stands for a deduplicated root is answered, its expiry perhaps extended. */
  ghost predicate AnswersOwner(s: QueueState, o: Out<Result<JobFlow>>, x: JobId, d: DeduplicationOptions, now: Time)
    requires x in s.jobs
  {
    && o.reply.Ok? && o.reply.value.parent == s.jobs[x]
    && o.state == s.(jobs := s.jobs[x := s.jobs[x].(deduplicationExpiresAt :=
         if d.extend && d.ttl.Some? then Some(now + d.ttl.value) else s.jobs[x].deduplicationExpiresAt)])
  }

  /** A submitted flow joins a stored root, is answered with the owner of the root's deduplication id, or is new. */
  lemma FlowDecides(s: QueueState, spec: JobSpec, uuid: JobId, specs: seq<JobSpec>, uuids: seq<JobId>, now: Time)
    requires |specs| == |uuids|
    ensures var o, root, all := AddFlow(s, spec, uuid, specs, uuids, now), SubmittedId(spec, uuid), NewcomersOf(s.queue, specs, uuids);
            if !MayBeSubmitted(spec.options, now) || !MayJoin(root, specs, uuids, now) then o == Out(s, Err(ConfigError))
            else if root in s.jobs then Decides(s, o, root, s.jobs[root].childIds, all, {}, None, now)
            else if spec.options.deduplication.Some? && !IsFree(s, spec.options.deduplication.value.id, now) then
              exists x :: Occupies(s, x, spec.options.deduplication.value.id, now) && AnswersOwner(s, o, x, spec.options.deduplication.value, now)
            else Decides(s, o, root, [], all, HeldId(spec), SeriesOf(s.queue, spec), now)
  {
    var parent := NewJob(s.queue, spec, uuid, now);
    var children := ChildJobs(s.queue, parent.id, specs, uuids, now);
    OptionsAreValidIff(spec.options, now);
    NewJobIsSubmitted(s.queue, spec, uuid, now);
    SubmittedIsSeen(s.queue, "", spec, uuid, now);
    SubmittedAreValidIff(specs, now);
    SubmittedAreSeen(s.queue, parent.id, specs, uuids, now);
    if MayBeSubmitted(spec.options, now) && MayJoin(parent.id, specs, uuids, now) {
      SubmittedAreFresh(s.queue, parent.id, specs, uuids, now);
      if parent.id in s.jobs {
        ExistingDecides(s, parent.id, children, now);
      } else {
        UnstoredRootDecides(s, parent, children, now);
      }
    }
  }

  lemma UnstoredRootDecides(s: QueueState, parent: Job, children: seq<Job>, now: Time)
    requires IsFresh(parent, now) && AreFresh(children, now) && NoDuplicates([parent.id] + Ids(children))
    ensures var o, d := AddNewFlow(s, parent, children, now), parent.options.deduplication;
            if d.Some? && !IsFree(s, d.value.id, now) then exists x :: Occupies(s, x, d.value.id, now) && AnswersOwner(s, o, x, d.value, now)
            else Decides(s, o, parent.id, [], SeenAll(children), if d.Some? then {d.value.id} else {}, parent.repeatKey, now)
  {
    if parent.options.deduplication.Some? { FoundIffOccupied(s, parent.options.deduplication.value.id, now); }
    var owner := FindDeduplicationOwner(s, parent, now);
    if owner.Some? {
      assert AnswersOwner(s, AddNewFlow(s, parent, children, now), owner.value, parent.options.deduplication.value, now);
    } else {
      ChildrenHaveOwnIds(parent.id, children);
      RootedHaveOwnIds([parent], children, children);
      NewDecides(s, parent, children, now);
    }
  }
}
