/**
  The walk that collects the removable descendants of a flow parent
  (`collect_removable_unprocessed_children`, src/job/memory.rs).
 */
module Descendants {
  import opened Ordering
  import opened JobTypes

  datatype Walked = Walked(out: seq<JobId>, seen: set<JobId>)

  /** Children that are neither active nor finished may be removed, and are walked into. */
  predicate Removable(jobs: map<JobId, Job>, id: JobId)
  {
    id in jobs && jobs[id].state != Active && !jobs[id].state.IsTerminal()
  }

  /** Depth-first, children before their parent, each id visited once even on cyclic graphs. */
  function Walk(jobs: map<JobId, Job>, childIds: seq<JobId>, seen: set<JobId>): (w: Walked)
    ensures seen <= w.seen
    decreases |jobs.Keys - seen|, |childIds|
  {
    if childIds == [] then Walked([], seen)
    else if childIds[0] in seen then Walk(jobs, childIds[1..], seen)
    else
      var id := childIds[0];
      Shrinks(jobs.Keys, seen, seen + {id});
      if !Removable(jobs, id) then Walk(jobs, childIds[1..], seen + {id})
      else
        assert id in jobs.Keys - seen && id !in jobs.Keys - (seen + {id});
        StrictlyShrinks(jobs.Keys, seen, id);
        var inner := Walk(jobs, jobs[id].childIds, seen + {id});
        Shrinks(jobs.Keys, seen, inner.seen);
        var rest := Walk(jobs, childIds[1..], inner.seen);
        Walked(inner.out + [id] + rest.out, rest.seen)
  }

  lemma Shrinks(keys: set<JobId>, seen: set<JobId>, more: set<JobId>)
    requires seen <= more
    ensures |keys - more| <= |keys - seen|
  {
    SubsetSize(keys - more, keys - seen);
  }

  lemma StrictlyShrinks(keys: set<JobId>, seen: set<JobId>, id: JobId)
    requires id in keys && id !in seen
    ensures |keys - (seen + {id})| < |keys - seen|
  {
    assert keys - seen == (keys - (seen + {id})) + {id};
  }

  lemma {:induction false} SubsetSize(a: set<JobId>, b: set<JobId>)
    requires a <= b
    ensures |a| <= |b|
  {
    if x :| x in a { SubsetSize(a - {x}, b - {x}); }
  }

  // -- What the walk finds ---------------------------------------------------

  /** `path` leads from one of `roots` to its last id, through removable jobs only. */
  ghost predicate RemovablePath(jobs: map<JobId, Job>, roots: seq<JobId>, path: seq<JobId>)
  {
    && path != []
    && path[0] in roots
    && (forall k | 0 <= k < |path| :: Removable(jobs, path[k]))
    && (forall k | 0 <= k < |path| - 1 :: path[k] in jobs && path[k + 1] in jobs[path[k]].childIds)
  }

  ghost predicate Reachable(jobs: map<JobId, Job>, roots: seq<JobId>, id: JobId)
  {
    exists path :: RemovablePath(jobs, roots, path) && path[|path| - 1] == id
  }

  /** Every removable job seen since `before` has all its children seen as well. */
  ghost predicate ClosedSince(jobs: map<JobId, Job>, before: set<JobId>, seen: set<JobId>)
  {
    forall x, c | x in seen && x !in before && Removable(jobs, x) && c in jobs[x].childIds :: c in seen
  }

  lemma ReachableRoot(jobs: map<JobId, Job>, roots: seq<JobId>, id: JobId)
    requires id in roots && Removable(jobs, id)
    ensures Reachable(jobs, roots, id)
  {
    assert RemovablePath(jobs, roots, [id]);
    assert [id][|[id]| - 1] == id;
  }

  /** Reaching `x` from the children of a removable root reaches it from the root. */
  lemma ReachableThrough(jobs: map<JobId, Job>, roots: seq<JobId>, id: JobId, x: JobId)
    requires id in roots && Removable(jobs, id)
    requires Reachable(jobs, jobs[id].childIds, x)
    ensures Reachable(jobs, roots, x)
  {
    var path :| RemovablePath(jobs, jobs[id].childIds, path) && path[|path| - 1] == x;
    var longer := [id] + path;
    forall k | 0 <= k < |longer| ensures Removable(jobs, longer[k]) {
      if k > 0 { assert longer[k] == path[k - 1]; }
    }
    forall k | 0 <= k < |longer| - 1 ensures longer[k] in jobs && longer[k + 1] in jobs[longer[k]].childIds {
      if k > 0 { assert longer[k] == path[k - 1] && longer[k + 1] == path[k]; }
    }
    assert RemovablePath(jobs, roots, longer) && longer[|longer| - 1] == x;
  }

  lemma ReachableMore(jobs: map<JobId, Job>, fewer: seq<JobId>, more: seq<JobId>, x: JobId)
    requires forall r | r in fewer :: r in more
    requires Reachable(jobs, fewer, x)
    ensures Reachable(jobs, more, x)
  {
    var path :| RemovablePath(jobs, fewer, path) && path[|path| - 1] == x;
    assert RemovablePath(jobs, more, path);
  }

  /** What a walk that started from `seen` leaves behind. */
  ghost predicate Covers(jobs: map<JobId, Job>, childIds: seq<JobId>, seen: set<JobId>, w: Walked)
  {
    && seen <= w.seen
    && (forall r | r in childIds :: r in w.seen)
    && ClosedSince(jobs, seen, w.seen)
    && (forall x :: x in w.out <==> x in w.seen && x !in seen && Removable(jobs, x))
    && NoDuplicates(w.out)
  }

  lemma CoversNode(jobs: map<JobId, Job>, id: JobId, tail: seq<JobId>, seen: set<JobId>, inner: Walked, rest: Walked)
    requires Removable(jobs, id) && id !in seen
    requires Covers(jobs, jobs[id].childIds, seen + {id}, inner)
    requires Covers(jobs, tail, inner.seen, rest)
    ensures Covers(jobs, [id] + tail, seen, Walked(inner.out + [id] + rest.out, rest.seen))
  {
    var out := inner.out + [id] + rest.out;
    assert NoDuplicates(out) by {
      forall i, j | 0 <= i < j < |out| ensures out[i] != out[j] {
        assert out[i] in inner.out || out[i] == id || out[i] in rest.out;
        assert out[j] in inner.out || out[j] == id || out[j] in rest.out;
      }
    }
    forall x, c | x in rest.seen && x !in seen && Removable(jobs, x) && c in jobs[x].childIds ensures c in rest.seen {
      if x in inner.seen { assert c in inner.seen; }
    }
  }

  lemma {:induction false} WalkCovers(jobs: map<JobId, Job>, childIds: seq<JobId>, seen: set<JobId>)
    ensures Covers(jobs, childIds, seen, Walk(jobs, childIds, seen))
    decreases |jobs.Keys - seen|, |childIds|
  {
    if childIds != [] {
      var id, tail := childIds[0], childIds[1..];
      assert childIds == [id] + tail;
      if id in seen {
        WalkCovers(jobs, tail, seen);
      } else if !Removable(jobs, id) {
        Shrinks(jobs.Keys, seen, seen + {id});
        WalkCovers(jobs, tail, seen + {id});
      } else {
        StrictlyShrinks(jobs.Keys, seen, id);
        var inner := Walk(jobs, jobs[id].childIds, seen + {id});
        Shrinks(jobs.Keys, seen, inner.seen);
        WalkCovers(jobs, jobs[id].childIds, seen + {id});
        WalkCovers(jobs, tail, inner.seen);
        CoversNode(jobs, id, tail, seen, inner, Walk(jobs, tail, inner.seen));
      }
    }
  }

  lemma {:induction false} WalkReaches(jobs: map<JobId, Job>, childIds: seq<JobId>, seen: set<JobId>, x: JobId)
    requires x in Walk(jobs, childIds, seen).out
    ensures Reachable(jobs, childIds, x)
    decreases |jobs.Keys - seen|, |childIds|
  {
    var id, tail := childIds[0], childIds[1..];
    assert childIds == [id] + tail;
    if id in seen {
      WalkReaches(jobs, tail, seen, x);
      ReachableMore(jobs, tail, childIds, x);
    } else if !Removable(jobs, id) {
      Shrinks(jobs.Keys, seen, seen + {id});
      WalkReaches(jobs, tail, seen + {id}, x);
      ReachableMore(jobs, tail, childIds, x);
    } else {
      StrictlyShrinks(jobs.Keys, seen, id);
      var inner := Walk(jobs, jobs[id].childIds, seen + {id});
      Shrinks(jobs.Keys, seen, inner.seen);
      if x in inner.out {
        WalkReaches(jobs, jobs[id].childIds, seen + {id}, x);
        ReachableThrough(jobs, childIds, id, x);
      } else if x == id {
        ReachableRoot(jobs, childIds, id);
      } else {
        WalkReaches(jobs, tail, inner.seen, x);
        ReachableMore(jobs, tail, childIds, x);
      }
    }
  }

  lemma {:induction false} ClosedCoversPath(jobs: map<JobId, Job>, roots: seq<JobId>, seen: set<JobId>, path: seq<JobId>, k: nat)
    requires forall r | r in roots :: r in seen
    requires ClosedSince(jobs, {}, seen)
    requires RemovablePath(jobs, roots, path) && k < |path|
    ensures path[k] in seen
  {
    if k > 0 {
      ClosedCoversPath(jobs, roots, seen, path, k - 1);
      assert path[k - 1] in seen && Removable(jobs, path[k - 1]) && path[k] in jobs[path[k - 1]].childIds;
    }
  }

  /**
    The walk returns, without duplicates, exactly the jobs reachable from the
    parent's children through jobs that are neither active nor finished.
   */
  lemma WalkIsReachability(jobs: map<JobId, Job>, roots: seq<JobId>)
    ensures NoDuplicates(Walk(jobs, roots, {}).out)
    ensures forall x :: x in Walk(jobs, roots, {}).out <==> Reachable(jobs, roots, x)
  {
    WalkCovers(jobs, roots, {});
    var w := Walk(jobs, roots, {});
    forall x | x in w.out ensures Reachable(jobs, roots, x) { WalkReaches(jobs, roots, {}, x); }
    forall x | Reachable(jobs, roots, x) ensures x in w.out {
      var path :| RemovablePath(jobs, roots, path) && path[|path| - 1] == x;
      ClosedCoversPath(jobs, roots, w.seen, path, |path| - 1);
    }
  }
}
