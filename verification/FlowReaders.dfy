/**
  The readers of a flow parent's dependencies: counts, full values and cursor
  pages (src/job/memory.rs, `flow_dependency_*`), and the proof that all three
  describe the same buckets.
 */
module FlowReaders {
  import opened Ordering
  import opened JobTypes
  import opened QueueModel

  datatype DependencyKind = Processed | Unprocessed | Ignored | Failure

  /** Where one listed child stands. */
  datatype Standing = In(kind: DependencyKind) | Discarded | Missing

  function RecordStanding(jobs: map<JobId, Job>, childId: JobId): Standing
  {
    if childId !in jobs then Missing else
      var child := jobs[childId];
      if child.state == Completed then In(Processed)
      else if child.state != Failed then In(Unprocessed)
      else if child.options.ignoreDependencyOnFailure || child.options.continueParentOnFailure then In(Ignored)
      else if child.options.removeDependencyOnFailure then Discarded
      else In(Failure)
  }

  /** The side index is consulted first; the record only decides unindexed children. */
  function ChildStanding(jobs: map<JobId, Job>, index: DependencyIndex, childId: JobId): Standing
  {
    if childId in index.processed then In(Processed)
    else if childId in index.ignored then In(Ignored)
    else if childId in index.failed then In(Failure)
    else RecordStanding(jobs, childId)
  }

  predicate Disjoint(index: DependencyIndex)
  {
    && (forall c | c in index.processed :: c !in index.ignored && c !in index.failed)
    && (forall c | c in index.ignored :: c !in index.failed)
  }

  // -- Buckets ---------------------------------------------------------------

  function Indexed(index: DependencyIndex, kind: DependencyKind): set<JobId>
  {
    match kind
    case Processed => index.processed.Keys
    case Ignored => index.ignored.Keys
    case Failure => index.failed
    case Unprocessed => {}
  }

  /** Unindexed children of `childIds` whose record puts them in standing `standing`. */
  ghost function Recorded(jobs: map<JobId, Job>, index: DependencyIndex, childIds: seq<JobId>, standing: Standing): set<JobId>
  {
    set c | c in childIds && !index.Contains(c) && RecordStanding(jobs, c) == standing
  }

  /** Bucket `kind` of a parent: indexed children, and unindexed ones by their records. */
  ghost function Bucket(parent: Job, jobs: map<JobId, Job>, index: DependencyIndex, kind: DependencyKind): set<JobId>
  {
    Indexed(index, kind) + Recorded(jobs, index, parent.childIds, In(kind))
  }

  /** What the readers rely on; every reachable state provides it. */
  ghost predicate Readable(parent: Job, jobs: map<JobId, Job>, index: DependencyIndex)
  {
    && NoDuplicates(parent.childIds)
    && Disjoint(index)
    && (forall id | id in jobs :: jobs[id].id == id && (jobs[id].state == Completed ==> jobs[id].returnValue.Some?))
  }

  // -- Counts ----------------------------------------------------------------

  datatype DependencyCounts = DependencyCounts(
    processed: nat, unprocessed: nat, failed: nat, ignored: nat, missing: nat)
  {
    function Of(kind: DependencyKind): nat
    {
      match kind
      case Processed => processed
      case Unprocessed => unprocessed
      case Ignored => ignored
      case Failure => failed
    }
  }

  function AddStanding(counts: DependencyCounts, standing: Standing): DependencyCounts
  {
    match standing
    case In(Processed) => counts.(processed := counts.processed + 1)
    case In(Unprocessed) => counts.(unprocessed := counts.unprocessed + 1)
    case In(Ignored) => counts.(ignored := counts.ignored + 1)
    case In(Failure) => counts.(failed := counts.failed + 1)
    case Discarded => counts
    case Missing => counts.(missing := counts.missing + 1)
  }

  function CountsFrom(jobs: map<JobId, Job>, index: DependencyIndex, childIds: seq<JobId>): DependencyCounts
  {
    if childIds == [] then DependencyCounts(|index.processed|, 0, |index.failed|, |index.ignored|, 0) else
      var n := |childIds| - 1;
      var counts := CountsFrom(jobs, index, childIds[..n]);
      if index.Contains(childIds[n]) then counts
      else AddStanding(counts, RecordStanding(jobs, childIds[n]))
  }

  /** `flow_dependency_counts`: index sizes plus the unindexed children. */
  function Counts(parent: Job, jobs: map<JobId, Job>, index: DependencyIndex): DependencyCounts
  {
    CountsFrom(jobs, index, parent.childIds)
  }

  method ReadCounts(parent: Job, jobs: map<JobId, Job>, index: DependencyIndex) returns (counts: DependencyCounts)
    ensures counts == Counts(parent, jobs, index)
  {
    counts := DependencyCounts(|index.processed|, 0, |index.failed|, |index.ignored|, 0);
    var k := 0;
    while k < |parent.childIds|
      invariant 0 <= k <= |parent.childIds|
      invariant counts == CountsFrom(jobs, index, parent.childIds[..k])
    {
      var childId := parent.childIds[k];
      if !index.Contains(childId) {
        counts := AddStanding(counts, RecordStanding(jobs, childId));
      }
      assert parent.childIds[..k + 1][..k] == parent.childIds[..k];
      k := k + 1;
    }
    assert parent.childIds[..k] == parent.childIds;
  }

  lemma RecordedOneMore(jobs: map<JobId, Job>, index: DependencyIndex, childIds: seq<JobId>, last: JobId, standing: Standing)
    requires last !in childIds
    ensures |Recorded(jobs, index, childIds + [last], standing)| ==
            |Recorded(jobs, index, childIds, standing)| + if !index.Contains(last) && RecordStanding(jobs, last) == standing then 1 else 0
  {
    var before := Recorded(jobs, index, childIds, standing);
    var after := Recorded(jobs, index, childIds + [last], standing);
    assert after == if !index.Contains(last) && RecordStanding(jobs, last) == standing then before + {last} else before;
  }

  lemma {:induction false} CountsFromRecords(jobs: map<JobId, Job>, index: DependencyIndex, childIds: seq<JobId>)
    requires NoDuplicates(childIds)
    ensures var counts := CountsFrom(jobs, index, childIds);
            && counts.processed == |index.processed| + |Recorded(jobs, index, childIds, In(Processed))|
            && counts.unprocessed == |Recorded(jobs, index, childIds, In(Unprocessed))|
            && counts.failed == |index.failed| + |Recorded(jobs, index, childIds, In(Failure))|
            && counts.ignored == |index.ignored| + |Recorded(jobs, index, childIds, In(Ignored))|
            && counts.missing == |Recorded(jobs, index, childIds, Missing)|
    decreases |childIds|
  {
    if childIds != [] {
      var n := |childIds| - 1;
      assert childIds == childIds[..n] + [childIds[n]];
      CountsFromRecords(jobs, index, childIds[..n]);
      RecordedOneMore(jobs, index, childIds[..n], childIds[n], In(Processed));
      RecordedOneMore(jobs, index, childIds[..n], childIds[n], In(Unprocessed));
      RecordedOneMore(jobs, index, childIds[..n], childIds[n], In(Failure));
      RecordedOneMore(jobs, index, childIds[..n], childIds[n], In(Ignored));
      RecordedOneMore(jobs, index, childIds[..n], childIds[n], Missing);
    }
  }

  lemma DisjointSizes(a: set<JobId>, b: set<JobId>)
    requires a !! b
    ensures |a + b| == |a| + |b|
  {
  }

  /** The counts are the sizes of the buckets. */
  lemma CountsAreBucketSizes(parent: Job, jobs: map<JobId, Job>, index: DependencyIndex, kind: DependencyKind)
    requires NoDuplicates(parent.childIds)
    ensures Counts(parent, jobs, index).Of(kind) == |Bucket(parent, jobs, index, kind)|
  {
    CountsFromRecords(jobs, index, parent.childIds);
    var recorded := Recorded(jobs, index, parent.childIds, In(kind));
    assert Indexed(index, kind) !! recorded by {
      forall c | c in recorded ensures c !in Indexed(index, kind) {}
    }
    DisjointSizes(Indexed(index, kind), recorded);
    assert |index.processed| == |index.processed.Keys| && |index.ignored| == |index.ignored.Keys|;
  }

  /** Buckets of a well-formed index are exactly the children of each standing. */
  lemma BucketsAreStandings(parent: Job, jobs: map<JobId, Job>, index: DependencyIndex, kind: DependencyKind)
    requires Disjoint(index) && forall c | index.Contains(c) :: c in parent.childIds
    ensures Bucket(parent, jobs, index, kind) == set c | c in parent.childIds && ChildStanding(jobs, index, c) == In(kind)
  {
    forall c ensures c in Bucket(parent, jobs, index, kind) <==> c in parent.childIds && ChildStanding(jobs, index, c) == In(kind) {
      if c in Indexed(index, kind) { assert index.Contains(c); }
    }
  }

  /** Children of `childIds` in standing `standing`, in listing order. */
  function Standings(jobs: map<JobId, Job>, index: DependencyIndex, childIds: seq<JobId>, standing: Standing): (r: seq<JobId>)
    ensures forall c :: c in r <==> c in childIds && ChildStanding(jobs, index, c) == standing
    ensures NoDuplicates(childIds) ==> NoDuplicates(r)
  {
    if childIds == [] then [] else
      var n := |childIds| - 1;
      assert childIds == childIds[..n] + [childIds[n]];
      var earlier := Standings(jobs, index, childIds[..n], standing);
      if ChildStanding(jobs, index, childIds[n]) == standing then earlier + [childIds[n]] else earlier
  }

  lemma {:induction false} StandingsPartition(jobs: map<JobId, Job>, index: DependencyIndex, childIds: seq<JobId>)
    ensures |Standings(jobs, index, childIds, In(Processed))| + |Standings(jobs, index, childIds, In(Unprocessed))|
          + |Standings(jobs, index, childIds, In(Failure))| + |Standings(jobs, index, childIds, In(Ignored))|
          + |Standings(jobs, index, childIds, Missing)| + |Standings(jobs, index, childIds, Discarded)| == |childIds|
    decreases |childIds|
  {
    if childIds != [] { StandingsPartition(jobs, index, childIds[..|childIds| - 1]); }
  }

  lemma {:induction false} SetSize(s: seq<JobId>)
    requires NoDuplicates(s)
    ensures |Elements(s)| == |s|
    decreases |s|
  {
    if s != [] {
      var n := |s| - 1;
      SetSize(s[..n]);
      assert s == s[..n] + [s[n]];
      assert Elements(s) == Elements(s[..n]) + {s[n]};
    }
  }

  lemma KindCount(parent: Job, jobs: map<JobId, Job>, index: DependencyIndex, kind: DependencyKind)
    requires NoDuplicates(parent.childIds) && Disjoint(index) && forall c | index.Contains(c) :: c in parent.childIds
    ensures Counts(parent, jobs, index).Of(kind) == |Standings(jobs, index, parent.childIds, In(kind))|
  {
    CountsAreBucketSizes(parent, jobs, index, kind);
    BucketsAreStandings(parent, jobs, index, kind);
    var listed := Standings(jobs, index, parent.childIds, In(kind));
    SetSize(listed);
    assert Elements(listed) == Bucket(parent, jobs, index, kind);
  }

  lemma UncountedStandings(parent: Job, jobs: map<JobId, Job>, index: DependencyIndex)
    requires NoDuplicates(parent.childIds)
    ensures Counts(parent, jobs, index).missing == |Standings(jobs, index, parent.childIds, Missing)|
    ensures |set c | c in parent.childIds && ChildStanding(jobs, index, c) == Discarded| == |Standings(jobs, index, parent.childIds, Discarded)|
  {
    CountsFromRecords(jobs, index, parent.childIds);
    var missing := Standings(jobs, index, parent.childIds, Missing);
    SetSize(missing);
    assert Elements(missing) == Recorded(jobs, index, parent.childIds, Missing);
    var discarded := Standings(jobs, index, parent.childIds, Discarded);
    SetSize(discarded);
    assert Elements(discarded) == set c | c in parent.childIds && ChildStanding(jobs, index, c) == Discarded;
  }

  /**
    Dependency conservation: the counts, and the failed children whose
    dependency was removed, account for every listed child exactly once.
   */
  lemma DependenciesAreConserved(parent: Job, jobs: map<JobId, Job>, index: DependencyIndex)
    requires NoDuplicates(parent.childIds) && Disjoint(index) && forall c | index.Contains(c) :: c in parent.childIds
    ensures var counts := Counts(parent, jobs, index);
            counts.processed + counts.unprocessed + counts.failed + counts.ignored + counts.missing
            + |set c | c in parent.childIds && ChildStanding(jobs, index, c) == Discarded| == |parent.childIds|
  {
    KindCount(parent, jobs, index, Processed);
    KindCount(parent, jobs, index, Unprocessed);
    KindCount(parent, jobs, index, Failure);
    KindCount(parent, jobs, index, Ignored);
    UncountedStandings(parent, jobs, index);
    StandingsPartition(jobs, index, parent.childIds);
  }

  // -- Page items --------------------------------------------------------------

  datatype PageItem =
    | ProcessedItem(childId: JobId, value: Value)
    | UnprocessedItem(childId: JobId)
    | IgnoredItem(childId: JobId, reason: string)
    | FailedItem(childId: JobId)

  /** What bucket `kind` says about a child of that bucket: the index's word first. */
  function Describe(jobs: map<JobId, Job>, index: DependencyIndex, kind: DependencyKind, childId: JobId): PageItem
  {
    match kind
    case Processed =>
      ProcessedItem(childId,
        if childId in index.processed then index.processed[childId]
        else if childId in jobs && jobs[childId].returnValue.Some? then jobs[childId].returnValue.value else Null)
    case Unprocessed => UnprocessedItem(childId)
    case Ignored =>
      IgnoredItem(childId,
        if childId in index.ignored then index.ignored[childId]
        else if childId in jobs && jobs[childId].failedReason.Some? then jobs[childId].failedReason.value else "")
    case Failure => FailedItem(childId)
  }

  /** `indexed_flow_dependency_page_item`. */
  function IndexedItem(index: DependencyIndex, childId: JobId, kind: DependencyKind): Option<PageItem>
  {
    match kind
    case Processed => if childId in index.processed then Some(ProcessedItem(childId, index.processed[childId])) else None
    case Ignored => if childId in index.ignored then Some(IgnoredItem(childId, index.ignored[childId])) else None
    case Failure => if childId in index.failed then Some(FailedItem(childId)) else None
    case Unprocessed => None
  }

  /** `retained_flow_dependency_page_item`. */
  function RetainedItem(child: Job, kind: DependencyKind): Option<PageItem>
  {
    match kind
    case Processed =>
      if child.state == Completed && child.returnValue.Some? then Some(ProcessedItem(child.id, child.returnValue.value)) else None
    case Unprocessed => if !child.state.IsTerminal() then Some(UnprocessedItem(child.id)) else None
    case Ignored =>
      if child.state == Failed && (child.options.ignoreDependencyOnFailure || child.options.continueParentOnFailure)
      then Some(IgnoredItem(child.id, if child.failedReason.Some? then child.failedReason.value else "")) else None
    case Failure =>
      if child.state == Failed && !child.options.ignoreDependencyOnFailure && !child.options.continueParentOnFailure
         && !child.options.removeDependencyOnFailure
      then Some(FailedItem(child.id)) else None
  }

  function ItemIds(items: seq<PageItem>): (ids: seq<JobId>)
    ensures |ids| == |items|
    ensures forall k | 0 <= k < |items| :: ids[k] == items[k].childId
  {
    seq(|items|, k requires 0 <= k < |items| => items[k].childId)
  }

  /** The items describe exactly the ids `ids`, each once. */
  ghost predicate Lists(jobs: map<JobId, Job>, index: DependencyIndex, kind: DependencyKind, items: seq<PageItem>, ids: set<JobId>)
  {
    && NoDuplicates(ItemIds(items))
    && (forall c :: c in ItemIds(items) <==> c in ids)
    && (forall k | 0 <= k < |items| :: items[k] == Describe(jobs, index, kind, items[k].childId))
  }

  lemma ListsOneMore(jobs: map<JobId, Job>, index: DependencyIndex, kind: DependencyKind, items: seq<PageItem>, ids: set<JobId>, item: PageItem)
    requires Lists(jobs, index, kind, items, ids) && item.childId !in ids
    requires item == Describe(jobs, index, kind, item.childId)
    ensures Lists(jobs, index, kind, items + [item], ids + {item.childId})
  {
    assert ItemIds(items + [item]) == ItemIds(items) + [item.childId];
  }

  /** Bucket members among the first children. */
  ghost function BucketAmong(jobs: map<JobId, Job>, index: DependencyIndex, kind: DependencyKind, childIds: seq<JobId>): set<JobId>
  {
    set c | c in childIds && (c in Indexed(index, kind) || (!index.Contains(c) && RecordStanding(jobs, c) == In(kind)))
  }

  /** One listed child's contribution to a page. */
  function ItemFor(jobs: map<JobId, Job>, index: DependencyIndex, childId: JobId, kind: DependencyKind): Option<PageItem>
  {
    var item := IndexedItem(index, childId, kind);
    if item.Some? then item
    else if index.Contains(childId) || childId !in jobs then None
    else RetainedItem(jobs[childId], kind)
  }

  lemma ItemForMembers(parent: Job, jobs: map<JobId, Job>, index: DependencyIndex, childId: JobId, kind: DependencyKind)
    requires Readable(parent, jobs, index)
    ensures var item := ItemFor(jobs, index, childId, kind);
            && (item.Some? <==> childId in Indexed(index, kind) || (!index.Contains(childId) && RecordStanding(jobs, childId) == In(kind)))
            && (item.Some? ==> item.value == Describe(jobs, index, kind, childId) && item.value.childId == childId)
  {
  }

  lemma BucketAmongOneMore(jobs: map<JobId, Job>, index: DependencyIndex, kind: DependencyKind, childIds: seq<JobId>, c: JobId)
    ensures BucketAmong(jobs, index, kind, childIds + [c]) == BucketAmong(jobs, index, kind, childIds)
            + if c in Indexed(index, kind) || (!index.Contains(c) && RecordStanding(jobs, c) == In(kind)) then {c} else {}
  {
  }

  /** A page part-way through the listed children. */
  ghost predicate PageUpTo(parent: Job, jobs: map<JobId, Job>, index: DependencyIndex, kind: DependencyKind, items: seq<PageItem>, k: nat)
    requires k <= |parent.childIds|
  {
    Lists(jobs, index, kind, items, BucketAmong(jobs, index, kind, parent.childIds[..k]))
  }

  lemma PageOneMore(parent: Job, jobs: map<JobId, Job>, index: DependencyIndex, kind: DependencyKind, items: seq<PageItem>, k: nat)
    requires Readable(parent, jobs, index) && k < |parent.childIds| && PageUpTo(parent, jobs, index, kind, items, k)
    ensures var item := ItemFor(jobs, index, parent.childIds[k], kind);
            PageUpTo(parent, jobs, index, kind, if item.Some? then items + [item.value] else items, k + 1)
  {
    var childId := parent.childIds[k];
    ItemForMembers(parent, jobs, index, childId, kind);
    BucketAmongOneMore(jobs, index, kind, parent.childIds[..k], childId);
    assert parent.childIds[..k + 1] == parent.childIds[..k] + [childId];
    var item := ItemFor(jobs, index, childId, kind);
    if item.Some? {
      ListsOneMore(jobs, index, kind, items, BucketAmong(jobs, index, kind, parent.childIds[..k]), item.value);
    }
  }

  /** A page that still lacks the indexed children `rest`. */
  ghost predicate PageWithout(parent: Job, jobs: map<JobId, Job>, index: DependencyIndex, kind: DependencyKind, items: seq<PageItem>, rest: set<JobId>)
  {
    rest <= Indexed(index, kind) && Lists(jobs, index, kind, items, Bucket(parent, jobs, index, kind) - rest)
  }

  lemma PageIndexedOneMore(parent: Job, jobs: map<JobId, Job>, index: DependencyIndex, kind: DependencyKind, items: seq<PageItem>, rest: set<JobId>, c: JobId)
    requires Readable(parent, jobs, index) && PageWithout(parent, jobs, index, kind, items, rest) && c in rest
    ensures var item := IndexedItem(index, c, kind);
            item.Some? && PageWithout(parent, jobs, index, kind, items + [item.value], rest - {c})
  {
    ItemForMembers(parent, jobs, index, c, kind);
    var bucket := Bucket(parent, jobs, index, kind);
    ListsOneMore(jobs, index, kind, items, bucket - rest, IndexedItem(index, c, kind).value);
    assert bucket - (rest - {c}) == bucket - rest + {c};
  }

  lemma PageOfListed(parent: Job, jobs: map<JobId, Job>, index: DependencyIndex, kind: DependencyKind, items: seq<PageItem>)
    requires PageUpTo(parent, jobs, index, kind, items, |parent.childIds|)
    ensures PageWithout(parent, jobs, index, kind, items, Indexed(index, kind) - Seen(parent, index, kind, |parent.childIds|))
  {
    assert parent.childIds[..|parent.childIds|] == parent.childIds;
    assert Bucket(parent, jobs, index, kind) - (Indexed(index, kind) - Seen(parent, index, kind, |parent.childIds|))
        == BucketAmong(jobs, index, kind, parent.childIds);
  }

  lemma PageComplete(parent: Job, jobs: map<JobId, Job>, index: DependencyIndex, kind: DependencyKind, items: seq<PageItem>)
    requires PageWithout(parent, jobs, index, kind, items, {})
    ensures Lists(jobs, index, kind, items, Bucket(parent, jobs, index, kind))
  {
    assert Bucket(parent, jobs, index, kind) - {} == Bucket(parent, jobs, index, kind);
  }

  /** The first children that the index puts into bucket `kind`. */
  ghost function Seen(parent: Job, index: DependencyIndex, kind: DependencyKind, k: nat): set<JobId>
    requires k <= |parent.childIds|
  {
    set c | c in Indexed(index, kind) && c in parent.childIds[..k]
  }

  lemma SeenOneMore(parent: Job, index: DependencyIndex, kind: DependencyKind, k: nat)
    requires k < |parent.childIds|
    ensures Seen(parent, index, kind, k + 1) == Seen(parent, index, kind, k)
            + if IndexedItem(index, parent.childIds[k], kind).Some? then {parent.childIds[k]} else {}
  {
    assert parent.childIds[..k + 1] == parent.childIds[..k] + [parent.childIds[k]];
  }

  /** The children the page still owes: indexed, but no longer listed by the parent. */
  method AppendUnlisted(parent: Job, jobs: map<JobId, Job>, index: DependencyIndex, kind: DependencyKind,
                        listed: seq<PageItem>, seen: set<JobId>) returns (bucket: seq<PageItem>)
    requires Readable(parent, jobs, index)
    requires PageWithout(parent, jobs, index, kind, listed, Indexed(index, kind) - seen)
    ensures Lists(jobs, index, kind, bucket, Bucket(parent, jobs, index, kind))
  {
    bucket := listed;
    var rest := Indexed(index, kind) - seen;
    while rest != {}
      invariant PageWithout(parent, jobs, index, kind, bucket, rest)
      decreases |rest|
    {
      var childId :| childId in rest;
      PageIndexedOneMore(parent, jobs, index, kind, bucket, rest, childId);
      bucket := bucket + [IndexedItem(index, childId, kind).value];
      rest := rest - {childId};
    }
    PageComplete(parent, jobs, index, kind, bucket);
  }

  /** `flow_dependency_page_items`: listed children first, then indexed ones the parent no longer lists. */
  method PageItems(parent: Job, jobs: map<JobId, Job>, index: DependencyIndex, kind: DependencyKind) returns (bucket: seq<PageItem>)
    requires Readable(parent, jobs, index)
    ensures Lists(jobs, index, kind, bucket, Bucket(parent, jobs, index, kind))
  {
    bucket := [];
    var seen: set<JobId> := {};
    var k := 0;
    while k < |parent.childIds|
      invariant 0 <= k <= |parent.childIds|
      invariant PageUpTo(parent, jobs, index, kind, bucket, k)
      invariant seen == Seen(parent, index, kind, k)
    {
      PageOneMore(parent, jobs, index, kind, bucket, k);
      SeenOneMore(parent, index, kind, k);
      var childId := parent.childIds[k];
      if IndexedItem(index, childId, kind).Some? { seen := seen + {childId}; }
      var item := ItemFor(jobs, index, childId, kind);
      if item.Some? { bucket := bucket + [item.value]; }
      k := k + 1;
    }
    PageOfListed(parent, jobs, index, kind, bucket);
    bucket := AppendUnlisted(parent, jobs, index, kind, bucket, seen);
  }

  // -- Cursor pages --------------------------------------------------------------

  datatype Page = Page(items: seq<PageItem>, nextCursor: nat)

  /** `flow_dependency_page` on an already collected bucket. */
  function PageOf(bucket: seq<PageItem>, cursor: nat, count: nat): Page
  {
    var size := if count < 1 then 1 else count;
    var start := if cursor < |bucket| then cursor else |bucket|;
    var end := if start + size < |bucket| then start + size else |bucket|;
    Page(bucket[start..end], if end < |bucket| then end else 0)
  }

  /** Everything a caller sees that keeps passing `next_cursor` back, with any count each time. */
  function Scroll(bucket: seq<PageItem>, cursor: nat, counts: nat -> nat): (all: seq<PageItem>)
    decreases if cursor < |bucket| then |bucket| - cursor else 0
  {
    var page := PageOf(bucket, cursor, counts(cursor));
    if page.nextCursor == 0 then page.items
    else page.items + Scroll(bucket, page.nextCursor, counts)
  }

  /** Following the cursor ends, and from cursor `cursor` on yields the rest of the bucket exactly once. */
  lemma {:induction false} ScrollYieldsTheRest(bucket: seq<PageItem>, cursor: nat, counts: nat -> nat)
    requires cursor <= |bucket|
    ensures Scroll(bucket, cursor, counts) == bucket[cursor..]
    decreases |bucket| - cursor
  {
    var page := PageOf(bucket, cursor, counts(cursor));
    if page.nextCursor != 0 {
      ScrollYieldsTheRest(bucket, page.nextCursor, counts);
      assert bucket[cursor..] == bucket[cursor..page.nextCursor] + bucket[page.nextCursor..];
    }
  }

  // -- Full values -----------------------------------------------------------------

  datatype DependencyValues = DependencyValues(
    processed: map<JobId, Value>, unprocessed: seq<JobId>, failed: seq<JobId>, ignored: map<JobId, string>)

  /** The values put exactly the ids `ids(kind)` into each part, and say about them what the buckets say. */
  ghost predicate Values(jobs: map<JobId, Job>, index: DependencyIndex, values: DependencyValues,
                         processed: set<JobId>, unprocessed: set<JobId>, failed: set<JobId>, ignored: set<JobId>)
  {
    && values.processed.Keys == processed
    && values.ignored.Keys == ignored
    && NoDuplicates(values.unprocessed) && (forall c :: c in values.unprocessed <==> c in unprocessed)
    && NoDuplicates(values.failed) && (forall c :: c in values.failed <==> c in failed)
    && (forall c | c in values.processed :: ProcessedItem(c, values.processed[c]) == Describe(jobs, index, Processed, c))
    && (forall c | c in values.ignored :: IgnoredItem(c, values.ignored[c]) == Describe(jobs, index, Ignored, c))
  }

  function PutItem(values: DependencyValues, item: PageItem): DependencyValues
  {
    match item
    case ProcessedItem(c, value) => values.(processed := values.processed[c := value])
    case UnprocessedItem(c) => values.(unprocessed := values.unprocessed + [c])
    case IgnoredItem(c, reason) => values.(ignored := values.ignored[c := reason])
    case FailedItem(c) => values.(failed := values.failed + [c])
  }

  ghost predicate ValuesAre(jobs: map<JobId, Job>, index: DependencyIndex, values: DependencyValues, ids: DependencyKind -> set<JobId>)
  {
    Values(jobs, index, values, ids(Processed), ids(Unprocessed), ids(Failure), ids(Ignored))
  }

  /** What `flow_dependency_values` adds for one listed child. */
  function ValueFor(jobs: map<JobId, Job>, index: DependencyIndex, childId: JobId): Option<PageItem>
  {
    if childId in index.processed then Some(ProcessedItem(childId, index.processed[childId]))
    else if childId in index.ignored then Some(IgnoredItem(childId, index.ignored[childId]))
    else if childId in index.failed then Some(FailedItem(childId))
    else if childId !in jobs then None
    else
      var child := jobs[childId];
      if child.state == Completed then
        if child.returnValue.Some? then Some(ProcessedItem(child.id, child.returnValue.value)) else None
      else if !child.state.IsTerminal() then Some(UnprocessedItem(child.id))
      else if child.options.ignoreDependencyOnFailure || child.options.continueParentOnFailure then
        Some(IgnoredItem(child.id, if child.failedReason.Some? then child.failedReason.value else ""))
      else if !child.options.removeDependencyOnFailure then Some(FailedItem(child.id))
      else None
  }

  predicate IsItemOf(item: PageItem, kind: DependencyKind)
  {
    match kind
    case Processed => item.ProcessedItem?
    case Unprocessed => item.UnprocessedItem?
    case Ignored => item.IgnoredItem?
    case Failure => item.FailedItem?
  }

  /** The values reader and the page reader say the same about every child. */
  lemma ValueForIsItemFor(parent: Job, jobs: map<JobId, Job>, index: DependencyIndex, childId: JobId, kind: DependencyKind)
    requires Readable(parent, jobs, index)
    ensures var value := ValueFor(jobs, index, childId);
            var item := ItemFor(jobs, index, childId, kind);
            (item.Some? <==> value.Some? && IsItemOf(value.value, kind)) && (item.Some? ==> item == value)
  {
  }

  ghost function Among(jobs: map<JobId, Job>, index: DependencyIndex, childIds: seq<JobId>): DependencyKind -> set<JobId>
  {
    kind => BucketAmong(jobs, index, kind, childIds)
  }

  lemma PutKeepsValues(jobs: map<JobId, Job>, index: DependencyIndex, values: DependencyValues, kind: DependencyKind,
                       ids: DependencyKind -> set<JobId>, item: PageItem, more: DependencyKind -> set<JobId>)
    requires ValuesAre(jobs, index, values, ids)
    requires IsItemOf(item, kind) && item == Describe(jobs, index, kind, item.childId) && item.childId !in ids(kind)
    requires more(kind) == ids(kind) + {item.childId}
    requires forall other | other != kind :: more(other) == ids(other)
    ensures ValuesAre(jobs, index, PutItem(values, item), more)
  {
  }

  lemma AmongOneMore(parent: Job, jobs: map<JobId, Job>, index: DependencyIndex, k: nat, kind: DependencyKind)
    requires Readable(parent, jobs, index) && k < |parent.childIds|
    ensures Among(jobs, index, parent.childIds[..k + 1])(kind) == Among(jobs, index, parent.childIds[..k])(kind)
              + if ItemFor(jobs, index, parent.childIds[k], kind).Some? then {parent.childIds[k]} else {}
  {
    assert parent.childIds[..k + 1] == parent.childIds[..k] + [parent.childIds[k]];
    BucketAmongOneMore(jobs, index, kind, parent.childIds[..k], parent.childIds[k]);
    ItemForMembers(parent, jobs, index, parent.childIds[k], kind);
  }

  lemma FreshInAmong(parent: Job, jobs: map<JobId, Job>, index: DependencyIndex, k: nat, kind: DependencyKind)
    requires Readable(parent, jobs, index) && k < |parent.childIds|
    ensures parent.childIds[k] !in Among(jobs, index, parent.childIds[..k])(kind)
  {
  }

  lemma ListedValue(parent: Job, jobs: map<JobId, Job>, index: DependencyIndex, values: DependencyValues, k: nat)
    requires Readable(parent, jobs, index) && k < |parent.childIds|
    requires ValuesAre(jobs, index, values, Among(jobs, index, parent.childIds[..k]))
    ensures var value := ValueFor(jobs, index, parent.childIds[k]);
            ValuesAre(jobs, index, if value.Some? then PutItem(values, value.value) else values, Among(jobs, index, parent.childIds[..k + 1]))
  {
    var c := parent.childIds[k];
    var value := ValueFor(jobs, index, c);
    forall kind ensures Among(jobs, index, parent.childIds[..k + 1])(kind) == Among(jobs, index, parent.childIds[..k])(kind)
                          + if value.Some? && IsItemOf(value.value, kind) then {c} else {}
    {
      AmongOneMore(parent, jobs, index, k, kind);
      ValueForIsItemFor(parent, jobs, index, c, kind);
    }
    if value.Some? { ListedItem(parent, jobs, index, values, k, value.value); }
  }

  lemma ListedItem(parent: Job, jobs: map<JobId, Job>, index: DependencyIndex, values: DependencyValues, k: nat, value: PageItem)
    requires Readable(parent, jobs, index) && k < |parent.childIds|
    requires ValuesAre(jobs, index, values, Among(jobs, index, parent.childIds[..k]))
    requires ValueFor(jobs, index, parent.childIds[k]) == Some(value)
    requires forall kind :: Among(jobs, index, parent.childIds[..k + 1])(kind) == Among(jobs, index, parent.childIds[..k])(kind)
                           + if IsItemOf(value, kind) then {parent.childIds[k]} else {}
    ensures ValuesAre(jobs, index, PutItem(values, value), Among(jobs, index, parent.childIds[..k + 1]))
  {
    var c := parent.childIds[k];
    var kind :| IsItemOf(value, kind);
    ValueForIsItemFor(parent, jobs, index, c, kind);
    ItemForMembers(parent, jobs, index, c, kind);
    FreshInAmong(parent, jobs, index, k, kind);
    PutKeepsValues(jobs, index, values, kind, Among(jobs, index, parent.childIds[..k]), value, Among(jobs, index, parent.childIds[..k + 1]));
  }

  /** Buckets with the indexed ids in `rest` not yet entered. */
  ghost function Except(parent: Job, jobs: map<JobId, Job>, index: DependencyIndex, rest: set<JobId>): DependencyKind -> set<JobId>
  {
    kind => Bucket(parent, jobs, index, kind) - rest
  }

  /** What is left without `c` differs in the bucket of `c` alone. */
  lemma ExceptOneLess(parent: Job, jobs: map<JobId, Job>, index: DependencyIndex, rest: set<JobId>, c: JobId, kind: DependencyKind)
    requires Readable(parent, jobs, index) && c in rest
    requires match kind case Processed => c in index.processed case Ignored => c in index.ignored case Failure => c in index.failed case Unprocessed => false
    ensures forall other | other != kind :: Except(parent, jobs, index, rest - {c})(other) == Except(parent, jobs, index, rest)(other)
    ensures Except(parent, jobs, index, rest - {c})(kind) == Except(parent, jobs, index, rest)(kind) + {c}
  {
    forall other | other != kind ensures c !in Bucket(parent, jobs, index, other) {}
    assert c in Bucket(parent, jobs, index, kind);
    forall other | other != kind
      ensures Except(parent, jobs, index, rest - {c})(other) == Except(parent, jobs, index, rest)(other) {}
  }

  lemma UnlistedValue(parent: Job, jobs: map<JobId, Job>, index: DependencyIndex, values: DependencyValues, rest: set<JobId>, c: JobId)
    requires Readable(parent, jobs, index) && index.Contains(c) && c in rest
    requires ValuesAre(jobs, index, values, Except(parent, jobs, index, rest))
    ensures var value := ValueFor(jobs, index, c);
            value.Some? && ValuesAre(jobs, index, PutItem(values, value.value), Except(parent, jobs, index, rest - {c}))
  {
    var value := ValueFor(jobs, index, c).value;
    var kind := if c in index.processed then Processed else if c in index.ignored then Ignored else Failure;
    ExceptOneLess(parent, jobs, index, rest, c, kind);
    PutKeepsValues(jobs, index, values, kind, Except(parent, jobs, index, rest), value, Except(parent, jobs, index, rest - {c}));
  }

  lemma ListedDone(parent: Job, jobs: map<JobId, Job>, index: DependencyIndex, values: DependencyValues, rest: set<JobId>)
    requires ValuesAre(jobs, index, values, Among(jobs, index, parent.childIds[..|parent.childIds|]))
    requires rest == set c | c in index.processed.Keys + index.ignored.Keys + index.failed && c !in parent.childIds
    ensures ValuesAre(jobs, index, values, Except(parent, jobs, index, rest))
  {
    assert parent.childIds[..|parent.childIds|] == parent.childIds;
    forall kind ensures Among(jobs, index, parent.childIds)(kind) == Except(parent, jobs, index, rest)(kind) {}
  }

  lemma ValuesComplete(parent: Job, jobs: map<JobId, Job>, index: DependencyIndex, values: DependencyValues)
    requires ValuesAre(jobs, index, values, Except(parent, jobs, index, {}))
    ensures Values(jobs, index, values,
                   Bucket(parent, jobs, index, Processed), Bucket(parent, jobs, index, Unprocessed),
                   Bucket(parent, jobs, index, Failure), Bucket(parent, jobs, index, Ignored))
  {
    forall kind ensures Except(parent, jobs, index, {})(kind) == Bucket(parent, jobs, index, kind) {}
  }

  /** `flow_dependency_values`. */
  method ReadValues(parent: Job, jobs: map<JobId, Job>, index: DependencyIndex) returns (values: DependencyValues)
    requires Readable(parent, jobs, index)
    ensures Values(jobs, index, values,
                   Bucket(parent, jobs, index, Processed), Bucket(parent, jobs, index, Unprocessed),
                   Bucket(parent, jobs, index, Failure), Bucket(parent, jobs, index, Ignored))
  {
    values := DependencyValues(map[], [], [], map[]);
    var k := 0;
    while k < |parent.childIds|
      invariant 0 <= k <= |parent.childIds|
      invariant ValuesAre(jobs, index, values, Among(jobs, index, parent.childIds[..k]))
    {
      ListedValue(parent, jobs, index, values, k);
      var value := ValueFor(jobs, index, parent.childIds[k]);
      if value.Some? { values := PutItem(values, value.value); }
      k := k + 1;
    }
    var rest := set c | c in index.processed.Keys + index.ignored.Keys + index.failed && c !in parent.childIds;
    ListedDone(parent, jobs, index, values, rest);
    while rest != {}
      invariant forall c | c in rest :: index.Contains(c)
      invariant ValuesAre(jobs, index, values, Except(parent, jobs, index, rest))
      decreases |rest|
    {
      var c :| c in rest;
      UnlistedValue(parent, jobs, index, values, rest, c);
      values := PutItem(values, ValueFor(jobs, index, c).value);
      rest := rest - {c};
    }
    ValuesComplete(parent, jobs, index, values);
  }

  // -- Agreement -----------------------------------------------------------------------

  /** The ids a values reader collected for one kind. */
  ghost function ValueIds(values: DependencyValues, kind: DependencyKind): set<JobId>
  {
    match kind
    case Processed => values.processed.Keys
    case Unprocessed => Elements(values.unprocessed)
    case Failure => Elements(values.failed)
    case Ignored => values.ignored.Keys
  }

  lemma ValueIdsMean(jobs: map<JobId, Job>, index: DependencyIndex, values: DependencyValues,
                     processed: set<JobId>, unprocessed: set<JobId>, failed: set<JobId>, ignored: set<JobId>)
    requires Values(jobs, index, values, processed, unprocessed, failed, ignored)
    ensures ValueIds(values, Processed) == processed && ValueIds(values, Unprocessed) == unprocessed
    ensures ValueIds(values, Failure) == failed && ValueIds(values, Ignored) == ignored
  {
  }

  lemma ItemIdsMean(jobs: map<JobId, Job>, index: DependencyIndex, kind: DependencyKind, items: seq<PageItem>, ids: set<JobId>)
    requires Lists(jobs, index, kind, items, ids)
    ensures Elements(ItemIds(items)) == ids && |items| == |ids|
  {
    SetSize(ItemIds(items));
    assert Elements(ItemIds(items)) == ids;
  }

  /**
    The three readers agree: whatever page items and values they collect, both
    name the same children for each kind, as many as the counts say.
   */
  lemma ReadersAgree(parent: Job, jobs: map<JobId, Job>, index: DependencyIndex, kind: DependencyKind,
                     items: seq<PageItem>, values: DependencyValues)
    requires Readable(parent, jobs, index)
    requires Lists(jobs, index, kind, items, Bucket(parent, jobs, index, kind))
    requires Values(jobs, index, values,
                    Bucket(parent, jobs, index, Processed), Bucket(parent, jobs, index, Unprocessed),
                    Bucket(parent, jobs, index, Failure), Bucket(parent, jobs, index, Ignored))
    ensures ValueIds(values, kind) == Elements(ItemIds(items))
    ensures |items| == Counts(parent, jobs, index).Of(kind)
  {
    CountsAreBucketSizes(parent, jobs, index, kind);
    ItemIdsMean(jobs, index, kind, items, Bucket(parent, jobs, index, kind));
    ValueIdsMean(jobs, index, values,
                 Bucket(parent, jobs, index, Processed), Bucket(parent, jobs, index, Unprocessed),
                 Bucket(parent, jobs, index, Failure), Bucket(parent, jobs, index, Ignored));
  }
}
