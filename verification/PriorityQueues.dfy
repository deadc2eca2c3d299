/**
  The stable priority queue for host-controlled execution, with its rebasing of
  exhausted sequence numbers (src/priority_queue.rs).
 */
module PriorityQueues {
  import opened JobTypes

  datatype PriorityItem<T> = PriorityItem(priority: nat, sequence: nat, value: T)

  const U64_MAX: nat := 0xFFFF_FFFF_FFFF_FFFF

  /** `Ord::cmp`, with the heap's reversal undone: `a` is claimed before `b`. */
  predicate Ahead<T>(a: PriorityItem<T>, b: PriorityItem<T>)
  {
    a.priority < b.priority || (a.priority == b.priority && a.sequence < b.sequence)
  }

  /** No two queued items carry the same sequence number. */
  ghost predicate Distinct<T(!new)>(entries: set<PriorityItem<T>>)
  {
    forall a, b | a in entries && b in entries && a != b :: a.sequence != b.sequence
  }

  ghost predicate IsFirst<T(!new)>(entries: set<PriorityItem<T>>, x: PriorityItem<T>)
  {
    x in entries && forall y | y in entries && y != x :: Ahead(x, y)
  }

  lemma {:induction false} FirstExists<T(!new)>(entries: set<PriorityItem<T>>)
    requires entries != {} && Distinct(entries)
    ensures exists x :: IsFirst(entries, x)
    decreases |entries|
  {
    var a :| a in entries;
    if entries == {a} {
      assert IsFirst(entries, a);
    } else {
      FirstExists(entries - {a});
      var x :| IsFirst(entries - {a}, x);
      assert a.sequence != x.sequence;
      var first := if Ahead(a, x) then a else x;
      forall y | y in entries && y != first ensures Ahead(first, y) {
        if y != a && y != x { assert Ahead(x, y); }
      }
      assert IsFirst(entries, first);
    }
  }

  lemma FirstUnique<T(!new)>(entries: set<PriorityItem<T>>, x: PriorityItem<T>, y: PriorityItem<T>)
    requires IsFirst(entries, x) && IsFirst(entries, y)
    ensures x == y
  {
  }

  ghost function First<T(!new)>(entries: set<PriorityItem<T>>): (x: PriorityItem<T>)
    requires entries != {} && Distinct(entries)
    ensures IsFirst(entries, x)
  {
    FirstExists(entries);
    var x :| IsFirst(entries, x);
    x
  }

  /** The future pop sequence: what popping until empty returns. */
  ghost function PopOrder<T(!new)>(entries: set<PriorityItem<T>>): seq<PriorityItem<T>>
    requires Distinct(entries)
    decreases |entries|
  {
    if entries == {} then [] else [First(entries)] + PopOrder(entries - {First(entries)})
  }

  /** `order` lists exactly the entries, each ahead of all after it. */
  ghost predicate IsOrdering<T(!new)>(entries: set<PriorityItem<T>>, order: seq<PriorityItem<T>>)
  {
    && (forall x :: x in order <==> x in entries)
    && forall i, j | 0 <= i < j < |order| :: Ahead(order[i], order[j])
  }

  lemma {:induction false} PopOrderIsOrdering<T(!new)>(entries: set<PriorityItem<T>>)
    requires Distinct(entries)
    ensures IsOrdering(entries, PopOrder(entries))
    ensures |PopOrder(entries)| == |entries|
    decreases |entries|
  {
    if entries != {} {
      var x := First(entries);
      var rest := PopOrder(entries - {x});
      PopOrderIsOrdering(entries - {x});
      forall y | y in rest ensures Ahead(x, y) {}
    }
  }

  /** Lower priority numbers are popped first, and of equals the one with the lower sequence. */
  lemma PopsByUrgency<T(!new)>(entries: set<PriorityItem<T>>, i: nat, j: nat)
    requires Distinct(entries) && i < j < |PopOrder(entries)|
    ensures PopOrder(entries)[i].priority <= PopOrder(entries)[j].priority
    ensures PopOrder(entries)[i].priority == PopOrder(entries)[j].priority ==> PopOrder(entries)[i].sequence < PopOrder(entries)[j].sequence
  {
    PopOrderIsOrdering(entries);
  }

  /** There is one ordering of the entries: the order in which they will be popped. */
  lemma {:induction false} OrderingIsPopOrder<T(!new)>(entries: set<PriorityItem<T>>, order: seq<PriorityItem<T>>)
    requires Distinct(entries) && IsOrdering(entries, order)
    ensures order == PopOrder(entries)
    decreases |order|
  {
    if order == [] {
      forall x ensures x !in entries { assert x in order <==> x in entries; }
    } else {
      HeadIsFirst(entries, order);
      OrderingIsPopOrder(entries - {order[0]}, order[1..]);
    }
  }

  /** The head of an ordering is the first entry, and the tail orders the others. */
  lemma HeadIsFirst<T(!new)>(entries: set<PriorityItem<T>>, order: seq<PriorityItem<T>>)
    requires Distinct(entries) && IsOrdering(entries, order) && order != []
    ensures order == [order[0]] + order[1..] && order[0] in entries && First(entries) == order[0]
    ensures IsOrdering(entries - {order[0]}, order[1..])
  {
    var x, rest := order[0], order[1..];
    assert x in order;
    forall y | y in entries && y != x ensures Ahead(x, y) { var k :| 0 <= k < |order| && order[k] == y; }
    FirstUnique(entries, x, First(entries));
    forall y ensures y in rest <==> y in entries - {x} {
      assert order == [x] + rest;
      if y in rest { var k :| 0 <= k < |rest| && rest[k] == y; assert Ahead(order[0], order[k + 1]); }
    }
  }

  // -- Contents -----------------------------------------------------------------------------

  datatype Contents<T(==)> = Contents(entries: set<PriorityItem<T>>, nextSequence: nat)

  /** Sequences are positive, distinct, and at most the counter. */
  ghost predicate WellFormed<T(!new)>(c: Contents<T>)
  {
    && Distinct(c.entries)
    && c.nextSequence <= U64_MAX
    && forall x | x in c.entries :: 1 <= x.sequence <= c.nextSequence
  }

  ghost function Earlier<T(!new)>(entries: set<PriorityItem<T>>, x: PriorityItem<T>): set<PriorityItem<T>>
  {
    set y | y in entries && y.sequence < x.sequence
  }

  ghost function Renumber<T(!new)>(entries: set<PriorityItem<T>>, x: PriorityItem<T>): PriorityItem<T>
  {
    x.(sequence := |Earlier(entries, x)| + 1)
  }

  /** Entries renumbered 1, 2, ... in the order of their old sequences. */
  ghost function Renumbered<T(!new)>(entries: set<PriorityItem<T>>): set<PriorityItem<T>>
  {
    set x | x in entries :: Renumber(entries, x)
  }

  /** `ensure_sequence_capacity`. */
  ghost function Rebased<T(!new)>(c: Contents<T>): Contents<T>
  {
    if c.nextSequence != U64_MAX then c else Contents(Renumbered(c.entries), |c.entries|)
  }

  ghost function Pushed<T(!new)>(c: Contents<T>, priority: nat, value: T): Contents<T>
  {
    var r := Rebased(c);
    Contents(r.entries + {PriorityItem(priority, r.nextSequence + 1, value)}, r.nextSequence + 1)
  }

  ghost function Popped<T(!new)>(c: Contents<T>): Contents<T>
    requires Distinct(c.entries)
  {
    if c.entries == {} then c else c.(entries := c.entries - {First(c.entries)})
  }

  ghost function Restored<T(!new)>(c: Contents<T>, item: PriorityItem<T>): Contents<T>
  {
    Contents(c.entries + {item}, if c.nextSequence < item.sequence then item.sequence else c.nextSequence)
  }

  // -- Rebasing -------------------------------------------------------------------------------

  lemma {:induction false} SubsetSize<T(!new)>(a: set<T>, b: set<T>)
    requires a <= b
    ensures |a| <= |b|
    ensures a < b ==> |a| < |b|
  {
    if x :| x in a { SubsetSize(a - {x}, b - {x}); }
  }

  /** Renumbering keeps every comparison of sequences. */
  lemma RenumberIsMonotone<T(!new)>(entries: set<PriorityItem<T>>, x: PriorityItem<T>, y: PriorityItem<T>)
    requires x in entries && y in entries && x.sequence < y.sequence
    ensures Renumber(entries, x).sequence < Renumber(entries, y).sequence
  {
    assert x in Earlier(entries, y) && x !in Earlier(entries, x);
    SubsetSize(Earlier(entries, x), Earlier(entries, y));
  }

  lemma RenumberedIsWellFormed<T(!new)>(entries: set<PriorityItem<T>>)
    requires Distinct(entries)
    ensures Distinct(Renumbered(entries))
    ensures forall x | x in Renumbered(entries) :: 1 <= x.sequence <= |entries|
  {
    forall a, b | a in entries && b in entries && a != b
      ensures Renumber(entries, a).sequence != Renumber(entries, b).sequence
    {
      if a.sequence < b.sequence { RenumberIsMonotone(entries, a, b); } else { RenumberIsMonotone(entries, b, a); }
    }
    forall x | x in entries ensures 1 <= Renumber(entries, x).sequence <= |entries| {
      assert x !in Earlier(entries, x);
      SubsetSize(Earlier(entries, x), entries);
    }
  }

  ghost function RenumberAll<T(!new)>(entries: set<PriorityItem<T>>, order: seq<PriorityItem<T>>): (r: seq<PriorityItem<T>>)
    ensures |r| == |order| && forall k | 0 <= k < |order| :: r[k] == Renumber(entries, order[k])
  {
    seq(|order|, k requires 0 <= k < |order| => Renumber(entries, order[k]))
  }

  lemma RenumberedElements<T(!new)>(entries: set<PriorityItem<T>>, order: seq<PriorityItem<T>>)
    requires forall x :: x in order <==> x in entries
    ensures forall x :: x in RenumberAll(entries, order) <==> x in Renumbered(entries)
  {
    var renumbered := RenumberAll(entries, order);
    forall x | x in renumbered ensures x in Renumbered(entries) {
      var k :| 0 <= k < |renumbered| && renumbered[k] == x;
      assert order[k] in entries;
    }
    forall x | x in Renumbered(entries) ensures x in renumbered {
      var y :| y in entries && x == Renumber(entries, y);
      var k :| 0 <= k < |order| && order[k] == y;
      assert renumbered[k] == x;
    }
  }

  lemma RenumberedAhead<T(!new)>(entries: set<PriorityItem<T>>, a: PriorityItem<T>, b: PriorityItem<T>)
    requires a in entries && b in entries && Ahead(a, b)
    ensures Ahead(Renumber(entries, a), Renumber(entries, b))
  {
    if a.priority == b.priority { RenumberIsMonotone(entries, a, b); }
  }

  /**
    Rebasing pops the same values with the same priorities in the same order as
    before, whatever was queued.
   */
  lemma RebasingKeepsPopOrder<T(!new)>(entries: set<PriorityItem<T>>)
    requires Distinct(entries)
    ensures Distinct(Renumbered(entries))
    ensures PopOrder(Renumbered(entries)) == RenumberAll(entries, PopOrder(entries))
  {
    var order := PopOrder(entries);
    var renumbered := RenumberAll(entries, order);
    PopOrderIsOrdering(entries);
    RenumberedIsWellFormed(entries);
    RenumberedElements(entries, order);
    forall i, j | 0 <= i < j < |renumbered| ensures Ahead(renumbered[i], renumbered[j]) {
      assert order[i] in order && order[j] in order;
      RenumberedAhead(entries, order[i], order[j]);
    }
    OrderingIsPopOrder(Renumbered(entries), renumbered);
  }

  lemma RebasedIsWellFormed<T(!new)>(c: Contents<T>)
    requires WellFormed(c) && |c.entries| < U64_MAX
    ensures WellFormed(Rebased(c)) && Rebased(c).nextSequence < U64_MAX
  {
    if c.nextSequence == U64_MAX { RenumberedIsWellFormed(c.entries); }
  }

  lemma PushedIsWellFormed<T(!new)>(c: Contents<T>, priority: nat, value: T)
    requires WellFormed(c) && |c.entries| < U64_MAX
    ensures WellFormed(Pushed(c, priority, value))
  {
    RebasedIsWellFormed(c);
  }

  // -- First in, first out ---------------------------------------------------------------------

  /** What a host sees of an item. */
  function Payload<T>(x: PriorityItem<T>): (nat, T) { (x.priority, x.value) }

  ghost function Payloads<T(!new)>(order: seq<PriorityItem<T>>): (r: seq<(nat, T)>)
    ensures |r| == |order| && forall k | 0 <= k < |order| :: r[k] == Payload(order[k])
  {
    seq(|order|, k requires 0 <= k < |order| => Payload(order[k]))
  }

  /** How many payloads at the front have priority at most `p`. */
  ghost function NoLess<T(!new)>(payloads: seq<(nat, T)>, p: nat): (k: nat)
    ensures k <= |payloads|
    ensures forall i | 0 <= i < k :: payloads[i].0 <= p
    ensures k < |payloads| ==> payloads[k].0 > p
  {
    if payloads == [] || payloads[0].0 > p then 0 else 1 + NoLess(payloads[1..], p)
  }

  lemma RebasedPayloads<T(!new)>(c: Contents<T>)
    requires WellFormed(c) && |c.entries| < U64_MAX
    ensures WellFormed(Rebased(c))
    ensures Payloads(PopOrder(Rebased(c).entries)) == Payloads(PopOrder(c.entries))
  {
    RebasedIsWellFormed(c);
    if c.nextSequence == U64_MAX { RebasingKeepsPopOrder(c.entries); }
  }

  /** `item` slipped in at position `k`. */
  function Inserted<T>(order: seq<PriorityItem<T>>, k: nat, item: PriorityItem<T>): (r: seq<PriorityItem<T>>)
    requires k <= |order|
    ensures |r| == |order| + 1 && r[k] == item
    ensures forall i | 0 <= i < k :: r[i] == order[i]
    ensures forall i | k < i < |r| :: r[i] == order[i - 1]
  {
    order[..k] + [item] + order[k..]
  }

  lemma InsertedElements<T(!new)>(order: seq<PriorityItem<T>>, k: nat, item: PriorityItem<T>)
    requires k <= |order|
    ensures forall x :: x in Inserted(order, k, item) <==> x in order || x == item
  {
    assert order == order[..k] + order[k..];
  }

  /** What every position of an ordering tells about the inserted item. */
  ghost predicate Fits<T(!new)>(order: seq<PriorityItem<T>>, k: nat, item: PriorityItem<T>)
    requires k <= |order|
  {
    && (forall i | 0 <= i < k :: Ahead(order[i], item))
    && (forall i | k <= i < |order| :: Ahead(item, order[i]))
  }

  lemma InsertionOrders<T(!new)>(entries: set<PriorityItem<T>>, order: seq<PriorityItem<T>>, k: nat, item: PriorityItem<T>)
    requires IsOrdering(entries, order) && k <= |order| && Fits(order, k, item)
    ensures IsOrdering(entries + {item}, Inserted(order, k, item))
  {
    InsertedElements(order, k, item);
    var longer := Inserted(order, k, item);
    forall i, j | 0 <= i < j < |longer| ensures Ahead(longer[i], longer[j]) {
      var a := if i <= k then i else i - 1;
      var b := if j <= k then j else j - 1;
      if i != k && j != k { assert Ahead(order[a], order[b]); }
    }
  }

  /** A new item fits behind everything at least as urgent. */
  lemma NewItemFits<T(!new)>(c: Contents<T>, order: seq<PriorityItem<T>>, item: PriorityItem<T>)
    requires WellFormed(c) && IsOrdering(c.entries, order) && item.sequence == c.nextSequence + 1
    ensures Fits(order, NoLess(Payloads(order), item.priority), item)
  {
    var k := NoLess(Payloads(order), item.priority);
    forall i | 0 <= i < |order| ensures order[i].sequence < item.sequence { assert order[i] in c.entries; }
    forall i | 0 <= i < k ensures Ahead(order[i], item) { assert Payloads(order)[i].0 <= item.priority; }
    forall i | k <= i < |order| ensures Ahead(item, order[i]) {
      assert Payloads(order)[k].0 > item.priority;
      if k < i { assert Ahead(order[k], order[i]); }
    }
  }

  lemma PayloadsOfInserted<T(!new)>(order: seq<PriorityItem<T>>, k: nat, item: PriorityItem<T>)
    requires k <= |order|
    ensures Payloads(Inserted(order, k, item)) == Payloads(order)[..k] + [Payload(item)] + Payloads(order)[k..]
  {
  }

  /**
    A push, rebasing or not, puts the new payload right behind everything queued
    with the same or a more urgent priority, and moves nothing else.
   */
  lemma PushIsFifo<T(!new)>(c: Contents<T>, priority: nat, value: T)
    requires WellFormed(c) && |c.entries| < U64_MAX
    ensures WellFormed(Pushed(c, priority, value))
    ensures var before := Payloads(PopOrder(c.entries));
            var k := NoLess(before, priority);
            Payloads(PopOrder(Pushed(c, priority, value).entries)) == before[..k] + [(priority, value)] + before[k..]
  {
    RebasedPayloads(c);
    PushedIsWellFormed(c, priority, value);
    var r := Rebased(c);
    var order := PopOrder(r.entries);
    var item := PriorityItem(priority, r.nextSequence + 1, value);
    PopOrderIsOrdering(r.entries);
    NewItemFits(r, order, item);
    var k := NoLess(Payloads(order), priority);
    InsertionOrders(r.entries, order, k, item);
    OrderingIsPopOrder(r.entries + {item}, Inserted(order, k, item));
    PayloadsOfInserted(order, k, item);
  }

  // -- Pop, push, restore ------------------------------------------------------------------------

  /** A batch of pushes. */
  ghost function PushedAll<T(!new)>(c: Contents<T>, batch: seq<(nat, T)>): Contents<T>
  {
    if batch == [] then c
    else Pushed(PushedAll(c, batch[..|batch| - 1]), batch[|batch| - 1].0, batch[|batch| - 1].1)
  }

  /** The items a batch of pushes adds when the counter stands at `next`. */
  ghost function Arrivals<T(!new)>(next: nat, batch: seq<(nat, T)>): set<PriorityItem<T>>
  {
    if batch == [] then {} else
      var n := |batch| - 1;
      Arrivals(next, batch[..n]) + {PriorityItem(batch[n].0, next + n + 1, batch[n].1)}
  }

  lemma {:induction false} PushesAdd<T(!new)>(c: Contents<T>, batch: seq<(nat, T)>)
    requires c.nextSequence + |batch| <= U64_MAX
    ensures PushedAll(c, batch) == Contents(c.entries + Arrivals(c.nextSequence, batch), c.nextSequence + |batch|)
    decreases |batch|
  {
    if batch != [] { PushesAdd(c, batch[..|batch| - 1]); }
  }

  /**
    Popping an item, pushing any batch and restoring the item is the same as
    never having popped it, as long as no push had to rebase.
   */
  lemma RestoreUndoesPop<T(!new)>(c: Contents<T>, batch: seq<(nat, T)>)
    requires WellFormed(c) && c.entries != {} && c.nextSequence + |batch| <= U64_MAX
    ensures Restored(PushedAll(Popped(c), batch), First(c.entries)) == PushedAll(c, batch)
  {
    var item := First(c.entries);
    PushesAdd(c, batch);
    PushesAdd(Popped(c), batch);
    assert c.entries - {item} + Arrivals(c.nextSequence, batch) + {item} == c.entries + Arrivals(c.nextSequence, batch);
  }

  // -- The queue object --------------------------------------------------------------------------

  class PriorityQueue<T(==,!new)> {
    var entries: set<PriorityItem<T>>
    var nextSequence: nat

    ghost function State(): Contents<T>
      reads this
    {
      Contents(entries, nextSequence)
    }

    ghost predicate Valid()
      reads this
    {
      WellFormed(State())
    }

    constructor ()
      ensures Valid() && State() == Contents({}, 0)
    {
      entries := {};
      nextSequence := 0;
    }

    /** The entries sorted by sequence; `ordered` sorts by priority first. */
    method SortBySequence() returns (order: seq<PriorityItem<T>>)
      requires Valid()
      ensures |order| == |entries| && forall x :: x in order <==> x in entries
      ensures forall i, j | 0 <= i < j < |order| :: order[i].sequence < order[j].sequence
    {
      order := [];
      var rest := entries;
      while rest != {}
        invariant TakenInOrder(entries, rest, order)
        decreases |rest|
      {
        OldestExists(rest);
        ghost var oldest :| IsOldest(rest, oldest);
        var x :| x in rest && forall y | y in rest && y != x :: x.sequence < y.sequence;
        TakeNext(entries, rest, order, x);
        order := order + [x];
        rest := rest - {x};
      }
    }

    /** The entries of `order`, numbered from one. */
    method RenumberInOrder(order: seq<PriorityItem<T>>) returns (renumbered: set<PriorityItem<T>>)
      requires forall x :: x in order <==> x in entries
      requires forall i, j | 0 <= i < j < |order| :: order[i].sequence < order[j].sequence
      ensures renumbered == Renumbered(entries)
    {
      renumbered := {};
      var index := 0;
      while index < |order|
        invariant 0 <= index <= |order|
        invariant renumbered == RenumberedUpTo(entries, order, index)
      {
        RenumberNext(entries, order, index);
        renumbered := renumbered + {order[index].(sequence := index + 1)};
        index := index + 1;
      }
      RenumberedAll(entries, order);
    }

    /** `ensure_sequence_capacity`: renumber in sequence order once the counter is exhausted. */
    method EnsureSequenceCapacity()
      requires Valid() && |entries| < U64_MAX
      modifies this
      ensures Valid() && State() == Rebased(old(State())) && nextSequence < U64_MAX
    {
      RebasedIsWellFormed(State());
      if nextSequence != U64_MAX { return; }
      var order := SortBySequence();
      var renumbered := RenumberInOrder(order);
      nextSequence := |order|;
      entries := renumbered;
    }

    /** `push`. */
    method Push(priority: nat, value: T) returns (sequence: nat)
      requires Valid() && |entries| < U64_MAX
      modifies this
      ensures Valid() && State() == Pushed(old(State()), priority, value) && sequence == nextSequence
    {
      PushedIsWellFormed(State(), priority, value);
      EnsureSequenceCapacity();
      nextSequence := nextSequence + 1;
      sequence := nextSequence;
      entries := entries + {PriorityItem(priority, sequence, value)};
    }

    /** `pop`: the head of the future pop sequence, if any. */
    method Pop() returns (item: Option<PriorityItem<T>>)
      requires Valid()
      modifies this
      ensures Valid() && State() == Popped(old(State()))
      ensures item.None? <==> old(entries) == {}
      ensures item.Some? ==> PopOrder(old(entries)) == [item.value] + PopOrder(entries)
    {
      if entries == {} { return None; }
      FirstExists(entries);
      var x :| x in entries && forall y | y in entries && y != x :: Ahead(x, y);
      FirstUnique(entries, x, First(entries));
      entries := entries - {x};
      return Some(x);
    }

    /** `restore`: only items that are out of the queue come back. */
    method Restore(item: PriorityItem<T>)
      requires Valid() && 1 <= item.sequence <= U64_MAX
      requires forall x | x in entries :: x.sequence != item.sequence
      modifies this
      ensures Valid() && State() == Restored(old(State()), item)
    {
      nextSequence := if nextSequence < item.sequence then item.sequence else nextSequence;
      entries := entries + {item};
    }

    /** `ordered`: exactly the future pop sequence. */
    method Ordered() returns (order: seq<PriorityItem<T>>)
      requires Valid()
      ensures order == PopOrder(entries)
    {
      order := [];
      var rest := entries;
      while rest != {}
        invariant rest <= entries
        invariant order + PopOrder(rest) == PopOrder(entries)
        decreases |rest|
      {
        FirstExists(rest);
        var x :| x in rest && forall y | y in rest && y != x :: Ahead(x, y);
        FirstUnique(rest, x, First(rest));
        assert order + PopOrder(rest) == (order + [x]) + PopOrder(rest - {x});
        order := order + [x];
        rest := rest - {x};
      }
    }

    /** `clear`. */
    method Clear()
      modifies this
      ensures Valid() && State() == Contents({}, 0)
    {
      entries := {};
      nextSequence := 0;
    }
  }

  ghost function RenumberedUpTo<T(!new)>(entries: set<PriorityItem<T>>, order: seq<PriorityItem<T>>, n: nat): set<PriorityItem<T>>
    requires n <= |order|
  {
    set k | 0 <= k < n :: Renumber(entries, order[k])
  }

  lemma RenumberNext<T(!new)>(entries: set<PriorityItem<T>>, order: seq<PriorityItem<T>>, n: nat)
    requires n < |order| && forall x :: x in order <==> x in entries
    requires forall i, j | 0 <= i < j < |order| :: order[i].sequence < order[j].sequence
    ensures RenumberedUpTo(entries, order, n + 1) == RenumberedUpTo(entries, order, n) + {order[n].(sequence := n + 1)}
  {
    EarlierByIndex(entries, order, n);
  }

  lemma RenumberedAll<T(!new)>(entries: set<PriorityItem<T>>, order: seq<PriorityItem<T>>)
    requires forall x :: x in order <==> x in entries
    ensures RenumberedUpTo(entries, order, |order|) == Renumbered(entries)
  {
    var renumbered := RenumberedUpTo(entries, order, |order|);
    forall x | x in Renumbered(entries) ensures x in renumbered {
      var y :| y in entries && x == Renumber(entries, y);
      var k :| 0 <= k < |order| && order[k] == y;
      assert x == Renumber(entries, order[k]);
    }
    forall x | x in renumbered ensures x in Renumbered(entries) {
      var k :| 0 <= k < |order| && x == Renumber(entries, order[k]);
      assert order[k] in entries;
    }
  }

  /** `order` holds the entries not in `rest`, by ascending sequence, all before those of `rest`. */
  ghost predicate TakenInOrder<T(!new)>(entries: set<PriorityItem<T>>, rest: set<PriorityItem<T>>, order: seq<PriorityItem<T>>)
  {
    && rest <= entries && |order| + |rest| == |entries|
    && (forall x :: x in order <==> x in entries && x !in rest)
    && (forall x, y | x in order && y in rest :: x.sequence < y.sequence)
    && (forall i, j | 0 <= i < j < |order| :: order[i].sequence < order[j].sequence)
  }

  lemma TakeNext<T(!new)>(entries: set<PriorityItem<T>>, rest: set<PriorityItem<T>>, order: seq<PriorityItem<T>>, x: PriorityItem<T>)
    requires TakenInOrder(entries, rest, order) && IsOldest(rest, x)
    ensures TakenInOrder(entries, rest - {x}, order + [x])
  {
  }

  /** The queued item with the smallest sequence. */
  ghost predicate IsOldest<T(!new)>(entries: set<PriorityItem<T>>, x: PriorityItem<T>)
  {
    x in entries && forall y | y in entries && y != x :: x.sequence < y.sequence
  }

  lemma {:induction false} OldestExists<T(!new)>(entries: set<PriorityItem<T>>)
    requires entries != {} && Distinct(entries)
    ensures exists x :: IsOldest(entries, x)
    decreases |entries|
  {
    var a :| a in entries;
    if entries == {a} {
      assert IsOldest(entries, a);
    } else {
      OldestExists(entries - {a});
      var x :| IsOldest(entries - {a}, x);
      if a.sequence < x.sequence { assert IsOldest(entries, a); } else { assert IsOldest(entries, x); }
    }
  }

  /** In sequence order, the entries before index `k` are the earlier ones. */
  lemma EarlierByIndex<T(!new)>(entries: set<PriorityItem<T>>, order: seq<PriorityItem<T>>, k: nat)
    requires k < |order| && forall x :: x in order <==> x in entries
    requires forall i, j | 0 <= i < j < |order| :: order[i].sequence < order[j].sequence
    ensures |Earlier(entries, order[k])| == k
  {
    var earlier := Earlier(entries, order[k]);
    assert earlier == set i | 0 <= i < k :: order[i] by {
      forall x | x in earlier ensures x in set i | 0 <= i < k :: order[i] {
        var i :| 0 <= i < |order| && order[i] == x;
      }
    }
    DistinctCount(order, k);
  }

  lemma {:induction false} DistinctCount<T(!new)>(order: seq<PriorityItem<T>>, k: nat)
    requires k <= |order| && forall i, j | 0 <= i < j < |order| :: order[i].sequence < order[j].sequence
    ensures |set i | 0 <= i < k :: order[i]| == k
  {
    if k > 0 {
      DistinctCount(order, k - 1);
      var fewer := set i | 0 <= i < k - 1 :: order[i];
      assert (set i | 0 <= i < k :: order[i]) == fewer + {order[k - 1]};
      assert order[k - 1] !in fewer;
    }
  }
}
