/** An open-addressing table with deletion by shifting back, and a ring of the values
    by age, refine a bounded list of distinct values, oldest first. */
module SpanSet {
  import opened Common
  import opened Words

  // The specification: a list of distinct values, oldest first

  /** The list after inserting `value` into a set that remembers `capacity`. */
  function Inserted(list: seq<nat>, value: nat, capacity: nat): seq<nat>
    requires 0 < capacity
  {
    if value in list then list
    else (if |list| == capacity then list[1..] else list) + [value]
  }

  ghost predicate Distinct(list: seq<nat>) {
    forall i, j :: 0 <= i < j < |list| ==> list[i] != list[j]
  }

  /** A use of the set: a value offered, or the last one taken forgotten. */
  datatype Op = Offer(value: nat) | Forget

  /** The set's list after some uses, and every value it ever took and was not
      told to forget, in order. */
  datatype History = History(list: seq<nat>, taken: seq<nat>)

  function After(ops: seq<Op>, capacity: nat): History
    requires 0 < capacity
  {
    if ops == [] then History([], [])
    else
      var h := After(ops[..|ops| - 1], capacity);
      match ops[|ops| - 1]
      case Offer(value) =>
        if value in h.list then h else History(Inserted(h.list, value, capacity), h.taken + [value])
      case Forget =>
        if h.list == [] then h else History(h.list[..|h.list| - 1], h.taken[..if h.taken == [] then 0 else |h.taken| - 1])
  }

  /** The last values taken, in order and all distinct, within the capacity. */
  ghost predicate LastOnes(h: History, capacity: nat) {
    |h.list| <= |h.taken| && h.list == h.taken[|h.taken| - |h.list|..] && |h.list| <= capacity && Distinct(h.list)
  }

  lemma OfferKeeps(h: History, value: nat, capacity: nat)
    requires 0 < capacity && LastOnes(h, capacity) && value !in h.list
    ensures LastOnes(History(Inserted(h.list, value, capacity), h.taken + [value]), capacity)
  {
    var front := if |h.list| == capacity then h.list[1..] else h.list;
    assert forall i :: 0 <= i < |front| ==> front[i] in h.list;
  }

  lemma ForgetKeeps(h: History, capacity: nat)
    requires LastOnes(h, capacity) && h.list != []
    ensures h.taken != [] && LastOnes(History(h.list[..|h.list| - 1], h.taken[..|h.taken| - 1]), capacity)
  {
  }

  /** For every sequence of uses, the set is the last values it took, in order
      and all distinct, never more than its capacity; with none forgotten, it is
      the last `capacity` of them, or all when they are fewer. */
  lemma {:induction false} RemembersTheLast(ops: seq<Op>, capacity: nat)
    requires 0 < capacity
    ensures var h := After(ops, capacity);
            && LastOnes(h, capacity)
            && (Forget !in ops ==> |h.list| == if |h.taken| < capacity then |h.taken| else capacity)
  {
    hide LastOnes;
    if ops == [] {
      NothingTaken(capacity);
    } else {
      var front := ops[..|ops| - 1];
      var h := After(front, capacity);
      RemembersTheLast(front, capacity);
      assert Forget !in ops ==> Forget !in front;
      match ops[|ops| - 1]
      case Offer(value) =>
        if value !in h.list {
          OfferKeeps(h, value, capacity);
        }
      case Forget =>
        if h.list != [] {
          ForgetKeeps(h, capacity);
        }
        assert ops[|ops| - 1] in ops;
    }
  }

  lemma NothingTaken(capacity: nat)
    ensures LastOnes(History([], []), capacity)
  {
  }

  // Slots of a round table

  /** How far slot `to` is from slot `from`, going round. */
  function Dist(size: nat, from: nat, to: nat): nat
    requires from < size && to < size
  {
    if from <= to then to - from else to + size - from
  }

  function Next(size: nat, slot: nat): nat
    requires slot < size
  {
    if slot + 1 == size then 0 else slot + 1
  }

  /** `slot` is on the way from `from` to `to`, `to` not included. */
  ghost predicate OnWay(size: nat, from: nat, to: nat, slot: nat)
    requires from < size && to < size && slot < size
  {
    Dist(size, from, slot) < Dist(size, from, to)
  }

  lemma NextOnWay(size: nat, from: nat, at: nat, slot: nat)
    requires from < size && at < size && slot < size && Next(size, at) != from
    ensures OnWay(size, from, Next(size, at), slot) <==> OnWay(size, from, at, slot) || slot == at
    ensures Dist(size, from, Next(size, at)) == Dist(size, from, at) + 1
  {
  }

  // A table: 0 is empty, and `home` gives the first slot to look at

  type Homes = nat -> nat

  ghost predicate HomesFit(home: Homes, size: nat) {
    forall v :: home(v) < size
  }

  /** The slots from `from` up to `to` are all taken. */
  ghost predicate Filled(table: seq<nat>, from: nat, to: nat)
    requires from < |table| && to < |table|
  {
    forall slot :: 0 <= slot < |table| && OnWay(|table|, from, to, slot) ==> table[slot] != 0
  }

  /** Each value's probe finds it, and no value is there twice; but for the slot
      `hole`, as if it were empty, when it is a slot. */
  ghost predicate Found(table: seq<nat>, home: Homes, hole: nat)
    requires HomesFit(home, |table|)
  {
    && (forall s :: 0 <= s < |table| && s != hole && table[s] != 0 ==> Filled(table, home(table[s]), s))
    && (forall s, t :: 0 <= s < t < |table| && s != hole && t != hole && table[s] != 0 ==> table[s] != table[t])
  }

  /** A probe that met only other values before an empty slot shows that its
      value is not there. */
  lemma NotThere(table: seq<nat>, home: Homes, value: nat, at: nat)
    requires HomesFit(home, |table|) && Found(table, home, |table|) && value != 0 && at < |table| && table[at] == 0
    requires forall slot :: 0 <= slot < |table| && OnWay(|table|, home(value), at, slot) ==> table[slot] != value
    ensures value !in table
  {
    forall s | 0 <= s < |table|
      ensures table[s] != value
    {
      assert table[s] != 0 ==> Filled(table, home(table[s]), s);
    }
  }

  /** A new value placed where its probe ends is found, and so is every other. */
  lemma Placed(table: seq<nat>, home: Homes, value: nat, at: nat)
    requires HomesFit(home, |table|) && Found(table, home, |table|) && value != 0 && value !in table
    requires at < |table| && table[at] == 0 && Filled(table, home(value), at)
    ensures Found(table[at := value], home, |table|)
  {
    var table' := table[at := value];
    forall s | 0 <= s < |table'| && table'[s] != 0
      ensures Filled(table', home(table'[s]), s)
    {
      if s != at {
        assert Filled(table, home(table[s]), s);
      }
    }
  }

  // Erasing: the values after the hole shifted back where their probe still
  // finds them

  /** The state of the shift: the slots after `hole` up to `next` are taken, and
      a value whose way passes the hole has not been looked at. */
  ghost predicate Shifting(table: seq<nat>, home: Homes, hole: nat, next: nat)
    requires HomesFit(home, |table|) && hole < |table| && next < |table|
  {
    && hole != next
    && table[hole] != 0
    && Filled(table, hole, next)
    && Found(table, home, hole)
    && (forall s :: 0 <= s < |table| && s != hole && table[s] != 0 && OnWay(|table|, home(table[s]), s, hole) ==>
                      !OnWay(|table|, hole, next, s))
  }

  lemma ShiftBegins(table: seq<nat>, home: Homes, hole: nat)
    requires HomesFit(home, |table|) && 1 < |table| && hole < |table| && table[hole] != 0 && Found(table, home, |table|)
    ensures Shifting(table, home, hole, Next(|table|, hole))
  {
  }

  /** The value at `next` stays: its way does not pass the hole. */
  lemma ShiftPasses(table: seq<nat>, home: Homes, hole: nat, next: nat)
    requires HomesFit(home, |table|) && hole < |table| && next < |table|
    requires Shifting(table, home, hole, next) && table[next] != 0
    requires Dist(|table|, home(table[next]), next) < Dist(|table|, hole, next)
    requires Next(|table|, next) != hole
    ensures Shifting(table, home, hole, Next(|table|, next))
  {
    var size := |table|;
    forall slot | 0 <= slot < size
      ensures OnWay(size, hole, Next(size, next), slot) <==> OnWay(size, hole, next, slot) || slot == next
    {
      NextOnWay(size, hole, next, slot);
    }
    assert !OnWay(size, home(table[next]), next, hole);
  }

  /** The value at `next` moves back to the hole, which is then at `next`. */
  lemma ShiftMoves(table: seq<nat>, home: Homes, hole: nat, next: nat)
    requires HomesFit(home, |table|) && hole < |table| && next < |table|
    requires Shifting(table, home, hole, next) && table[next] != 0
    requires Dist(|table|, home(table[next]), next) >= Dist(|table|, hole, next)
    ensures Shifting(table[hole := table[next]], home, next, Next(|table|, next))
  {
    var size, value := |table|, table[next];
    var table' := table[hole := value];
    assert forall s :: 0 <= s < size ==> (table'[s] != 0 <==> table[s] != 0);
    forall s | 0 <= s < size && s != next && table'[s] != 0
      ensures Filled(table', home(table'[s]), s)
    {
      if s == hole {
        assert Filled(table, home(value), next);
        assert forall slot :: 0 <= slot < size && OnWay(size, home(value), hole, slot) ==> OnWay(size, home(value), next, slot);
      } else {
        assert Filled(table, home(table[s]), s);
      }
    }
    forall s | 0 <= s < size && s != next
      ensures !OnWay(size, next, Next(size, next), s)
    {
    }
  }

  /** At the first empty slot no way passes the hole any more. */
  lemma ShiftEnds(table: seq<nat>, home: Homes, hole: nat, next: nat)
    requires HomesFit(home, |table|) && hole < |table| && next < |table|
    requires Shifting(table, home, hole, next) && table[next] == 0
    ensures Found(table[hole := 0], home, |table|)
  {
    var size := |table|;
    forall s | 0 <= s < size && s != hole && table[s] != 0
      ensures Filled(table[hole := 0], home(table[s]), s)
    {
      assert Filled(table, home(table[s]), s);
      assert !OnWay(size, home(table[s]), s, next);
    }
  }

  // What a table holds

  ghost predicate InTable(table: seq<nat>, hole: nat, value: nat) {
    exists s :: 0 <= s < |table| && s != hole && table[s] == value
  }

  /** The table's values, the hole's apart, are those of the list. */
  ghost predicate Holds(table: seq<nat>, hole: nat, list: seq<nat>) {
    forall v: nat :: v != 0 ==> (InTable(table, hole, v) <==> v in list)
  }

  lemma HoldsMoved(table: seq<nat>, hole: nat, next: nat, list: seq<nat>)
    requires hole < |table| && next < |table| && hole != next && Holds(table, hole, list)
    ensures Holds(table[hole := table[next]], next, list)
  {
    var table' := table[hole := table[next]];
    forall v: nat | v != 0
      ensures InTable(table', next, v) <==> InTable(table, hole, v)
    {
      if InTable(table, hole, v) {
        var s :| 0 <= s < |table| && s != hole && table[s] == v;
        assert table'[if s == next then hole else s] == v;
      }
      if InTable(table', next, v) {
        var s :| 0 <= s < |table| && s != next && table'[s] == v;
        assert table[if s == hole then next else s] == v;
      }
    }
  }

  lemma HoldsEmptied(table: seq<nat>, hole: nat, list: seq<nat>)
    requires hole < |table| && Holds(table, hole, list)
    ensures Holds(table[hole := 0], |table|, list)
  {
    var table' := table[hole := 0];
    forall v: nat | v != 0
      ensures InTable(table', |table|, v) <==> InTable(table, hole, v)
    {
      if InTable(table, hole, v) {
        var s :| 0 <= s < |table| && s != hole && table[s] == v;
        assert table'[s] == v;
      }
    }
  }

  lemma HoldsPlaced(table: seq<nat>, at: nat, value: nat, list: seq<nat>)
    requires at < |table| && table[at] == 0 && Holds(table, |table|, list)
    ensures Holds(table[at := value], |table|, list + [value])
  {
    var table' := table[at := value];
    forall v: nat | v != 0
      ensures InTable(table', |table|, v) <==> v in list + [value]
    {
      if InTable(table, |table|, v) {
        var s :| 0 <= s < |table| && table[s] == v;
        assert table'[s] == v;
      }
      assert table'[at] == value;
    }
  }

  /** Taking one value's slot as the hole takes it out of the list. */
  lemma HoldsHole(table: seq<nat>, home: Homes, hole: nat, list: seq<nat>, less: seq<nat>)
    requires HomesFit(home, |table|) && Found(table, home, |table|)
    requires hole < |table| && table[hole] != 0 && Holds(table, |table|, list)
    requires forall v :: v in less <==> v in list && v != table[hole]
    ensures Holds(table, hole, less)
  {
    forall v: nat | v != 0
      ensures InTable(table, hole, v) <==> v in less
    {
      if v in less {
        assert InTable(table, |table|, v);
        var s :| 0 <= s < |table| && table[s] == v;
        assert s != hole;
      }
      if InTable(table, hole, v) {
        var s :| 0 <= s < |table| && s != hole && table[s] == v;
        assert InTable(table, |table|, v);
        assert s < hole ==> table[s] != table[hole];
        assert hole < s ==> table[hole] != table[s];
      }
    }
  }

  // A table more than the list long has an empty slot

  ghost function Values(list: seq<nat>): set<nat> {
    set v | v in list
  }

  lemma ValuesLast(list: seq<nat>)
    requires list != []
    ensures Values(list) == Values(list[..|list| - 1]) + {list[|list| - 1]}
  {
    assert list == list[..|list| - 1] + [list[|list| - 1]];
  }

  lemma {:induction false} DistinctCount(list: seq<nat>)
    requires Distinct(list)
    ensures |Values(list)| == |list|
  {
    if list != [] {
      DistinctCount(list[..|list| - 1]);
      ValuesLast(list);
    }
  }

  lemma {:induction false} CountAtMost(list: seq<nat>)
    ensures |Values(list)| <= |list|
  {
    if list != [] {
      CountAtMost(list[..|list| - 1]);
      ValuesLast(list);
    }
  }

  lemma {:induction false} SubsetCount(less: set<nat>, more: set<nat>)
    requires less <= more
    ensures |less| <= |more|
  {
    if less != {} {
      var v :| v in less;
      SubsetCount(less - {v}, more - {v});
    }
  }

  lemma EmptySlot(table: seq<nat>, home: Homes, list: seq<nat>) returns (empty: nat)
    requires HomesFit(home, |table|) && Found(table, home, |table|) && Holds(table, |table|, list)
    requires |list| < |table|
    ensures empty < |table| && table[empty] == 0
  {
    if forall s :: 0 <= s < |table| ==> table[s] != 0 {
      DistinctCount(table);
      CountAtMost(list);
      forall v | v in table
        ensures v in list
      {
        assert InTable(table, |table|, v);
      }
      SubsetCount(Values(table), Values(list));
      assert false;
    }
    empty :| 0 <= empty < |table| && table[empty] == 0;
  }

  // The ring

  function RingAt(size: nat, oldest: nat, i: nat): nat
    requires oldest < size && i <= size
  {
    if oldest + i < size then oldest + i else oldest + i - size
  }

  /** The values of a ring, oldest first. */
  function RingList(ring: seq<nat>, oldest: nat, count: nat): (list: seq<nat>)
    requires oldest < |ring| && count <= |ring|
    ensures |list| == count
  {
    seq(count, i requires 0 <= i < count => ring[RingAt(|ring|, oldest, i)])
  }

  lemma RingPushed(ring: seq<nat>, oldest: nat, count: nat, value: nat)
    requires oldest < |ring| && count < |ring|
    ensures RingList(ring[RingAt(|ring|, oldest, count) := value], oldest, count + 1) == RingList(ring, oldest, count) + [value]
  {
  }

  lemma RingDropped(ring: seq<nat>, oldest: nat, count: nat)
    requires oldest < |ring| && 0 < count <= |ring|
    ensures RingList(ring, RingAt(|ring|, oldest, 1), count - 1) == RingList(ring, oldest, count)[1..]
    ensures RingList(ring, oldest, count - 1) == RingList(ring, oldest, count)[..count - 1]
  {
  }

  /** `slots` doubled until it is no less than 2 * capacity. */
  function SlotsFor(slots: nat, capacity: nat): (size: nat)
    requires 0 < slots
    ensures 2 * capacity <= size
    ensures slots < 2 * capacity ==> size < 4 * capacity
    decreases 2 * capacity - slots
  {
    if slots < 2 * capacity then SlotsFor(2 * slots, capacity) else slots
  }

  /** The table's size is a power of two, so a mask takes a probe round it: the slot
      after one, and the way between two in 64 bits, are what the mask leaves. */
  lemma {:induction false} SlotsPower(n: nat, capacity: nat) returns (m: nat)
    ensures SlotsFor(Pow2(n), capacity) == Pow2(m)
    decreases 2 * capacity - Pow2(n)
  {
    if Pow2(n) < 2 * capacity {
      m := SlotsPower(n + 1, capacity);
    } else {
      m := n;
    }
  }

  lemma NextMasked(n: nat, slot: nat)
    requires slot < Pow2(n)
    ensures Next(Pow2(n), slot) == And(slot + 1, Pow2(n) - 1)
  {
    hide Pow2, And;
    if slot + 1 < Pow2(n) {
      AndMask(0, slot + 1, n);
    } else {
      AndMask(1, 0, n);
    }
  }

  lemma DistMasked(n: nat, slot: nat, other: nat)
    requires n <= 64 && slot < Pow2(n) && other < Pow2(n)
    ensures Dist(Pow2(n), slot, other) == And((WORD + other - slot) % WORD, Pow2(n) - 1)
  {
    hide Pow2, And;
    var size, high := Pow2(n), Pow2(64 - n);
    assert high * size == WORD by {
      Pow2Sum(64 - n, n);
      Pow2Word();
    }
    if slot <= other {
      assert size <= WORD by {
        TimesAtLeast(high, size);
      }
      assert (WORD + other - slot) % WORD == other - slot;
      AndMask(0, other - slot, n);
    } else {
      var low := size + other - slot;
      assert WORD + other - slot == (high - 1) * size + low;
      assert (WORD + other - slot) % WORD == WORD + other - slot;
      AndMask(high - 1, low, n);
    }
  }

  lemma TimesAtLeast(high: nat, size: nat)
    requires high > 0
    ensures size <= high * size
  {
  }

  class SpanSet {
    const capacity: nat
    const home: Homes
    const slots: array<nat>  // the table
    const ring: array<nat>   // `count` values by age, the first at `oldest`
    var oldest: nat
    var count: nat

    ghost predicate Shaped()
      reads this
    {
      && 0 < capacity == ring.Length && 2 * capacity <= slots.Length && ring != slots
      && HomesFit(home, slots.Length)
      && oldest < capacity && count <= capacity
    }

    ghost function Contents(): seq<nat>
      requires Shaped()
      reads this, ring
    {
      RingList(ring[..], oldest, count)
    }

    ghost predicate TableOk(list: seq<nat>)
      requires Shaped()
      reads this, slots
    {
      Found(slots[..], home, slots.Length) && Holds(slots[..], slots.Length, list) && |list| <= capacity
    }

    ghost predicate Valid()
      reads this, slots, ring
    {
      Shaped() && TableOk(Contents()) && Distinct(Contents()) && 0 !in Contents()
    }

    constructor (capacity: nat, home: Homes)
      requires 0 < capacity && HomesFit(home, SlotsFor(1, capacity))
      ensures Valid() && fresh(slots) && fresh(ring)
      ensures this.capacity == capacity && Contents() == []
    {
      this.capacity, this.home := capacity, home;
      slots := new nat[SlotsFor(1, capacity)](_ => 0);
      ring := new nat[capacity](_ => 0);
      oldest, count := 0, 0;
    }

    /** The empty slot a probe for `value` ends at, the value not met before it,
        or the slot that holds the value. */
    method Probe(value: nat, ghost list: seq<nat>) returns (at: nat)
      requires Shaped() && TableOk(list) && value != 0
      ensures at < slots.Length && (slots[at] == value <==> value in list)
      ensures value !in list ==> slots[at] == 0 && Filled(slots[..], home(value), at) && value !in slots[..]
    {
      ghost var table, start := slots[..], home(value);
      ghost var empty := EmptySlot(table, home, list);
      at := home(value);
      while slots[at] != 0 && slots[at] != value
        invariant at < slots.Length && slots[..] == table
        invariant Dist(|table|, start, at) + Dist(|table|, at, empty) == Dist(|table|, start, empty)
        invariant Filled(table, start, at)
        invariant forall slot :: 0 <= slot < |table| && OnWay(|table|, start, at, slot) ==> table[slot] != value
        decreases Dist(|table|, at, empty)
      {
        forall slot | 0 <= slot < |table|
          ensures OnWay(|table|, start, Next(|table|, at), slot) <==> OnWay(|table|, start, at, slot) || slot == at
        {
          NextOnWay(|table|, start, at, slot);
        }
        at := Next(slots.Length, at);
      }
      if slots[at] == 0 {
        NotThere(table, home, value, at);
        assert !InTable(table, |table|, value);
      } else {
        assert InTable(table, |table|, value);
      }
    }

    /** Deletes a value so that a probe still finds every other. */
    method Erase(value: nat, ghost list: seq<nat>, ghost less: seq<nat>)
      requires Shaped() && TableOk(list) && value in list && value != 0
      requires |less| <= capacity && forall v :: v in less <==> v in list && v != value
      modifies slots
      ensures TableOk(less)
    {
      hide Found, Holds;
      ghost var size := slots.Length;
      ghost var empty := EmptySlot(slots[..], home, list);
      var hole: nat := Probe(value, list);
      HoldsHole(slots[..], home, hole, list, less);
      ShiftBegins(slots[..], home, hole);
      var next: nat := Next(slots.Length, hole);
      while slots[next] != 0
        invariant hole < size && next < size && slots[empty] == 0
        invariant Dist(size, hole, next) + Dist(size, next, empty) == Dist(size, hole, empty)
        invariant Shifting(slots[..], home, hole, next) && Holds(slots[..], hole, less)
        decreases Dist(size, next, empty)
      {
        ghost var table := slots[..];
        if Dist(slots.Length, home(slots[next]), next) >= Dist(slots.Length, hole, next) {
          ShiftMoves(table, home, hole, next);
          HoldsMoved(table, hole, next, less);
          slots[hole] := slots[next];
          assert slots[..] == table[hole := table[next]];
          hole := next;
        } else {
          ShiftPasses(table, home, hole, next);
        }
        next := Next(slots.Length, next);
      }
      ShiftEnds(slots[..], home, hole, next);
      HoldsEmptied(slots[..], hole, less);
      ghost var table := slots[..];
      slots[hole] := 0;
      assert slots[..] == table[hole := 0];
    }

    /** The oldest value of a full set forgotten. */
    method ForgetOldest()
      requires Valid() && 0 < count
      modifies `oldest, `count, slots
      ensures Valid() && count == old(count) - 1 && Contents() == old(Contents())[1..]
    {
      hide Found, Holds, HomesFit;
      ghost var list := Contents();
      var first := ring[oldest];
      RingDropped(ring[..], oldest, count);
      assert list[0] == first;
      Erase(first, list, list[1..]);
      oldest := RingAt(capacity, oldest, 1);
      count := count - 1;
    }

    /** A new value placed in the slot its probe ends at, and last in the ring. */
    method Place(value: nat, at: nat)
      requires Valid() && count < capacity && value != 0 && value !in Contents()
      requires at < slots.Length && slots[at] == 0 && Filled(slots[..], home(value), at) && value !in slots[..]
      modifies `count, slots, ring
      ensures Valid() && Contents() == old(Contents()) + [value]
    {
      hide Found, Holds, HomesFit, Filled;
      ghost var list, table, order := Contents(), slots[..], ring[..];
      Placed(table, home, value, at);
      HoldsPlaced(table, at, value, list);
      RingPushed(order, oldest, count, value);
      slots[at] := value;
      assert slots[..] == table[at := value];
      var last := RingAt(capacity, oldest, count);
      ring[last] := value;
      assert ring[..] == order[last := value];
      count := count + 1;
    }

    /** Refines `Inserted`, and answers whether the list changed. */
    method Insert(value: nat) returns (isNew: bool)
      requires Valid() && value != 0
      modifies this, slots, ring
      ensures Valid()
      ensures isNew == (value !in old(Contents()))
      ensures Contents() == Inserted(old(Contents()), value, capacity)
    {
      hide Found, Holds, HomesFit, Filled, Distinct;
      var at := Probe(value, Contents());
      if slots[at] == value {
        return false;
      }
      if count == capacity {
        ForgetOldest();
        at := Probe(value, Contents());
      }
      Place(value, at);
      return true;
    }

    /** Drops the last value of the list. */
    method ForgetLast()
      requires Valid() && 0 < |Contents()|
      modifies this, slots
      ensures Valid()
      ensures Contents() == old(Contents())[..|old(Contents())| - 1]
    {
      hide Found, Holds, HomesFit;
      ghost var list := Contents();
      var last := ring[RingAt(capacity, oldest, count - 1)];
      RingDropped(ring[..], oldest, count);
      assert list[|list| - 1] == last;
      Erase(last, list, list[..|list| - 1]);
      count := count - 1;
    }
  }
}
