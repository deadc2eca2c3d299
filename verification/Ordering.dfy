/**
  Orders used throughout the job queue: the byte order of job ids and the
  lexicographic `(key, key, ..., id)` orders by which the queue sorts the job
  vectors it collects from its hash map.
 */
module Ordering {

  type JobId = string

  // -- Job ids ---------------------------------------------------------------

  /** `String::cmp(a, b) == Less`. */
  predicate IdLess(a: JobId, b: JobId)
    decreases |a|
  {
    if b == [] then false
    else if a == [] then true
    else a[0] < b[0] || (a[0] == b[0] && IdLess(a[1..], b[1..]))
  }

  lemma {:induction false} IdTrichotomy(a: JobId, b: JobId)
    ensures IdLess(a, b) || a == b || IdLess(b, a)
    decreases |a|
  {
    if a == [] || b == [] || a[0] != b[0] {
    } else {
      IdTrichotomy(a[1..], b[1..]);
      assert a == [a[0]] + a[1..] && b == [b[0]] + b[1..];
    }
  }

  lemma {:induction false} IdAsymmetric(a: JobId, b: JobId)
    requires IdLess(a, b)
    ensures a != b && !IdLess(b, a)
    decreases |a|
  {
    if a != [] && a[0] == b[0] {
      IdAsymmetric(a[1..], b[1..]);
    }
  }

  lemma {:induction false} IdIrreflexive(a: JobId)
    ensures !IdLess(a, a)
    decreases |a|
  {
    if a != [] { IdIrreflexive(a[1..]); }
  }

  lemma {:induction false} IdTransitive(a: JobId, b: JobId, c: JobId)
    requires IdLess(a, b) && IdLess(b, c)
    ensures IdLess(a, c)
    decreases |a|
  {
    if a != [] && a[0] == b[0] && b[0] == c[0] {
      IdTransitive(a[1..], b[1..], c[1..]);
    }
  }

  // -- Ranked ids ------------------------------------------------------------

  /** Up to four integer sort keys, compared left to right (`cmp().then_with(..)`). */
  datatype Rank = Rank(r0: int, r1: int, r2: int, r3: int)

  predicate RankLess(a: Rank, b: Rank)
  {
    a.r0 < b.r0 || (a.r0 == b.r0 &&
    (a.r1 < b.r1 || (a.r1 == b.r1 &&
    (a.r2 < b.r2 || (a.r2 == b.r2 &&
     a.r3 < b.r3)))))
  }

  /** Job `a` sorts strictly before job `b`: by rank, ties broken by id. */
  predicate Before(ranks: map<JobId, Rank>, a: JobId, b: JobId)
    requires a in ranks && b in ranks
  {
    RankLess(ranks[a], ranks[b]) || (ranks[a] == ranks[b] && IdLess(a, b))
  }

  lemma BeforeTotal(ranks: map<JobId, Rank>, a: JobId, b: JobId)
    requires a in ranks && b in ranks && a != b
    ensures Before(ranks, a, b) != Before(ranks, b, a)
  {
    IdTrichotomy(a, b);
    if IdLess(a, b) { IdAsymmetric(a, b); } else { IdAsymmetric(b, a); }
  }

  lemma BeforeIrreflexive(ranks: map<JobId, Rank>, a: JobId)
    requires a in ranks
    ensures !Before(ranks, a, a)
  {
    IdIrreflexive(a);
  }

  lemma BeforeTransitive(ranks: map<JobId, Rank>, a: JobId, b: JobId, c: JobId)
    requires a in ranks && b in ranks && c in ranks
    requires Before(ranks, a, b) && Before(ranks, b, c)
    ensures Before(ranks, a, c)
  {
    if ranks[a] == ranks[b] && ranks[b] == ranks[c] { IdTransitive(a, b, c); }
  }

  predicate IsLeast(ranks: map<JobId, Rank>, ids: set<JobId>, x: JobId)
    requires ids <= ranks.Keys
  {
    x in ids && forall y | y in ids && y != x :: Before(ranks, x, y)
  }

  lemma {:induction false} LeastExists(ranks: map<JobId, Rank>, ids: set<JobId>)
    requires ids <= ranks.Keys && ids != {}
    ensures exists x :: IsLeast(ranks, ids, x)
    decreases |ids|
  {
    var a :| a in ids;
    if ids == {a} {
      assert IsLeast(ranks, ids, a);
    } else {
      LeastExists(ranks, ids - {a});
      var x :| IsLeast(ranks, ids - {a}, x);
      BeforeTotal(ranks, a, x);
      if Before(ranks, a, x) {
        forall y | y in ids && y != a ensures Before(ranks, a, y) {
          if y != x { BeforeTransitive(ranks, a, x, y); }
        }
        assert IsLeast(ranks, ids, a);
      } else {
        assert IsLeast(ranks, ids, x);
      }
    }
  }

  lemma LeastUnique(ranks: map<JobId, Rank>, ids: set<JobId>, x: JobId, y: JobId)
    requires ids <= ranks.Keys && IsLeast(ranks, ids, x) && IsLeast(ranks, ids, y)
    ensures x == y
  {
    if x != y { BeforeTotal(ranks, x, y); }
  }

  predicate NoDuplicates<T(==)>(s: seq<T>)
  {
    forall i, j | 0 <= i < j < |s| :: s[i] != s[j]
  }

  predicate SortedBefore(ranks: map<JobId, Rank>, s: seq<JobId>)
    requires forall x | x in s :: x in ranks
  {
    forall i, j | 0 <= i < j < |s| :: Before(ranks, s[i], s[j])
  }

  ghost function Least(ranks: map<JobId, Rank>, ids: set<JobId>): (x: JobId)
    requires ids <= ranks.Keys && ids != {}
    ensures IsLeast(ranks, ids, x)
  {
    LeastExists(ranks, ids);
    var x :| IsLeast(ranks, ids, x);
    x
  }

  /** The vector `ids` sorted ascending: what `sort_by` leaves behind. */
  ghost function Sorted(ranks: map<JobId, Rank>, ids: set<JobId>): (r: seq<JobId>)
    requires ids <= ranks.Keys
    ensures forall x :: x in r <==> x in ids
    ensures NoDuplicates(r)
    ensures SortedBefore(ranks, r)
    decreases |ids|
  {
    if ids == {} then [] else
      var x := Least(ranks, ids);
      var rest := Sorted(ranks, ids - {x});
      assert forall y | y in rest :: Before(ranks, x, y);
      [x] + rest
  }

  lemma {:induction false} SortedLength(ranks: map<JobId, Rank>, ids: set<JobId>)
    requires ids <= ranks.Keys
    ensures |Sorted(ranks, ids)| == |ids|
    decreases |ids|
  {
    if ids != {} { SortedLength(ranks, ids - {Least(ranks, ids)}); }
  }

  /** A duplicate-free vector in `Before` order is the sorted vector. */
  lemma {:induction false} SortedUnique(ranks: map<JobId, Rank>, ids: set<JobId>, s: seq<JobId>)
    requires ids <= ranks.Keys
    requires forall x :: x in s <==> x in ids
    requires SortedBefore(ranks, s)
    ensures s == Sorted(ranks, ids)
    decreases |s|
  {
    if s == [] {
      forall x ensures x !in ids { assert x in s <==> x in ids; }
    } else {
      assert s[0] in ids;
      var x := s[0];
      var rest := s[1..];
      assert IsLeast(ranks, ids, x) by {
        forall y | y in ids && y != x ensures Before(ranks, x, y) {
          var k :| 0 <= k < |s| && s[k] == y;
        }
      }
      LeastUnique(ranks, ids, x, Least(ranks, ids));
      forall y ensures y in rest <==> y in ids - {x} {
        if y in rest {
          var k :| 0 <= k < |rest| && rest[k] == y;
          assert s[k + 1] == y && Before(ranks, s[0], s[k + 1]);
          BeforeIrreflexive(ranks, x);
        }
        if y in ids - {x} { var k :| 0 <= k < |s| && s[k] == y; assert rest[k - 1] == y; }
      }
      SortedUnique(ranks, ids - {x}, rest);
      assert s == [x] + rest;
    }
  }

  lemma SortedStep(ranks: map<JobId, Rank>, ids: set<JobId>, x: JobId, done: seq<JobId>)
    requires ids <= ranks.Keys && IsLeast(ranks, ids, x)
    ensures done + Sorted(ranks, ids) == (done + [x]) + Sorted(ranks, ids - {x})
  {
    LeastUnique(ranks, ids, x, Least(ranks, ids));
    var rest := Sorted(ranks, ids - {x});
    assert Sorted(ranks, ids) == [x] + rest;
    assert done + ([x] + rest) == (done + [x]) + rest;
  }

  ghost predicate SortedSoFar(ranks: map<JobId, Rank>, ids: set<JobId>, remaining: set<JobId>, done: seq<JobId>)
    requires ids <= ranks.Keys
  {
    remaining <= ids && done + Sorted(ranks, remaining) == Sorted(ranks, ids)
  }

  lemma SortBegins(ranks: map<JobId, Rank>, ids: set<JobId>)
    requires ids <= ranks.Keys
    ensures SortedSoFar(ranks, ids, ids, [])
  {
    assert [] + Sorted(ranks, ids) == Sorted(ranks, ids);
  }

  lemma SortContinues(ranks: map<JobId, Rank>, ids: set<JobId>, remaining: set<JobId>, done: seq<JobId>, x: JobId)
    requires ids <= ranks.Keys && SortedSoFar(ranks, ids, remaining, done) && IsLeast(ranks, remaining, x)
    ensures SortedSoFar(ranks, ids, remaining - {x}, done + [x]) && |remaining - {x}| < |remaining|
  {
    SortedStep(ranks, remaining, x, done);
  }

  lemma SortEnds(ranks: map<JobId, Rank>, ids: set<JobId>, done: seq<JobId>)
    requires ids <= ranks.Keys && SortedSoFar(ranks, ids, {}, done)
    ensures done == Sorted(ranks, ids)
  {
    assert done + [] == done;
  }

  /** Sorting by repeatedly taking the least remaining id. */
  method Sort(ranks: map<JobId, Rank>, ids: set<JobId>) returns (r: seq<JobId>)
    requires ids <= ranks.Keys
    ensures r == Sorted(ranks, ids)
  {
    var remaining := ids;
    r := [];
    SortBegins(ranks, ids);
    while remaining != {}
      invariant SortedSoFar(ranks, ids, remaining, r)
      decreases |remaining|
    {
      LeastExists(ranks, remaining);
      var x :| x in remaining && IsLeast(ranks, remaining, x);
      SortContinues(ranks, ids, remaining, r, x);
      r := r + [x];
      remaining := remaining - {x};
    }
    SortEnds(ranks, ids, r);
  }

  lemma {:induction false} ReverseContains<T>(s: seq<T>)
    ensures |Reverse(s)| == |s|
    ensures forall k | 0 <= k < |s| :: Reverse(s)[k] == s[|s| - 1 - k]
    ensures forall x :: x in Reverse(s) <==> x in s
  {
    if s != [] {
      ReverseContains(s[1..]);
      assert s == [s[0]] + s[1..];
    }
  }

  function Reverse<T>(s: seq<T>): seq<T>
  {
    if s == [] then [] else Reverse(s[1..]) + [s[0]]
  }
}
