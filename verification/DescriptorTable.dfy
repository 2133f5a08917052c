/** The table of a client's sockets that a forked child closes. Every store the
    owner thread makes is one step; a child is forked between any two, and reads
    the block that is current in its copy of memory. */
module DescriptorTable {

  const FREE: int := -1
  const FIRST_SIZE: nat := 8

  /** What a block of slots records. */
  function Recorded(slots: seq<int>): set<int> {
    set fd | fd in slots && fd != FREE
  }

  ghost predicate Full(slots: seq<int>) {
    forall i :: 0 <= i < |slots| ==> slots[i] != FREE
  }

  /** How many slots hold a descriptor. */
  function Taken(slots: seq<int>): (taken: nat)
    ensures taken <= |slots|
  {
    if slots == [] then 0 else Taken(slots[..|slots| - 1]) + if slots[|slots| - 1] != FREE then 1 else 0
  }

  lemma {:induction false} FullTaken(slots: seq<int>)
    requires Full(slots)
    ensures Taken(slots) == |slots|
  {
    if slots != [] {
      FullTaken(slots[..|slots| - 1]);
    }
  }

  lemma {:induction false} NoneTaken(slots: seq<int>)
    requires forall i :: 0 <= i < |slots| ==> slots[i] == FREE
    ensures Taken(slots) == 0
  {
    if slots != [] {
      NoneTaken(slots[..|slots| - 1]);
    }
  }

  lemma {:induction false} FewerTaken(was: seq<int>, slots: seq<int>)
    requires |slots| == |was| && forall i :: 0 <= i < |was| ==> slots[i] == was[i] || slots[i] == FREE
    ensures Taken(slots) <= Taken(was)
  {
    if slots != [] {
      FewerTaken(was[..|was| - 1], slots[..|slots| - 1]);
    }
  }

  lemma RecordedPut(slots: seq<int>, slot: nat, fd: int)
    requires slot < |slots| && slots[slot] == FREE
    ensures Recorded(slots[slot := fd]) == Recorded(slots) + Recorded([fd])
  {
    var now := slots[slot := fd];
    forall other | other in slots && other != FREE ensures other in now {
      var i :| 0 <= i < |slots| && slots[i] == other;
      assert now[i] == other;
    }
    assert now[slot] == fd;
  }

  lemma RecordedOne(fd: int)
    ensures Recorded([fd]) == if fd == FREE then {} else {fd}
  {
  }

  lemma RecordedCopied(slots: seq<int>, fd: int, more: nat)
    ensures Recorded(slots + [fd] + seq(more, _ => FREE)) == Recorded(slots) + Recorded([fd])
  {
  }

  /** The slots before one freed of a descriptor, the others as they were. */
  ghost predicate Freeing(was: seq<int>, slots: seq<int>, fd: int, done: nat) {
    |slots| == |was| && forall i :: 0 <= i < |was| ==> slots[i] == if i < done && was[i] == fd then FREE else was[i]
  }

  lemma FreeingRecorded(was: seq<int>, slots: seq<int>, fd: int, done: nat)
    requires Freeing(was, slots, fd, done) && done <= |was|
    ensures Recorded(slots) == Recorded(was) || Recorded(slots) == Recorded(was) - {fd}
    ensures done == |was| ==> Recorded(slots) == Recorded(was) - {fd}
  {
    forall other | other in was && other != FREE && other != fd ensures other in slots {
      var i :| 0 <= i < |was| && was[i] == other;
      assert slots[i] == other;
    }
    assert Recorded(was) - {fd} <= Recorded(slots) <= Recorded(was);
    if fd in slots {
      assert fd == FREE || Recorded(slots) == Recorded(was);
    }
  }

  class DescriptorTable {
    /** Every block made: those outgrown are kept. */
    var blocks: seq<seq<int>>
    var owned: nat
    var current: nat

    /** What a child forked after each store so far would find recorded. */
    ghost var seen: seq<set<int>>
    /** The most slots taken at once. */
    ghost var peak: nat

    ghost predicate Valid()
      reads this
    {
      && current == owned < |blocks| && |blocks[owned]| >= FIRST_SIZE
      && Taken(blocks[owned]) <= peak && (|blocks[owned]| == FIRST_SIZE || |blocks[owned]| <= 2 * peak)
    }

    function Descriptors(): set<int>
      requires Valid()
      reads this
    {
      Recorded(blocks[owned])
    }

    constructor ()
      ensures Valid() && Descriptors() == {} && seen == [] && peak == 0
    {
      blocks := [seq(FIRST_SIZE, _ => FREE)];
      owned, current := 0, 0;
      seen, peak := [], 0;
      NoneTaken(seq(FIRST_SIZE, _ => FREE));
    }

    /** One atomic store to a slot. */
    method StoreSlot(block: nat, slot: nat, fd: int)
      requires current < |blocks| && block < |blocks| && slot < |blocks[block]|
      modifies `blocks, `seen
      ensures blocks == old(blocks)[block := old(blocks[block])[slot := fd]]
      ensures seen == old(seen) + [Recorded(blocks[current])]
    {
      blocks := blocks[block := blocks[block][slot := fd]];
      seen := seen + [Recorded(blocks[current])];
    }

    /** The store of the pointer to the block in use. */
    method StoreCurrent(block: nat)
      requires block < |blocks|
      modifies `current, `seen
      ensures current == block && seen == old(seen) + [Recorded(blocks[block])]
    {
      current := block;
      seen := seen + [Recorded(blocks[current])];
    }

    /** Doubles the block; `current` changes only after the last of its stores. */
    method Grow(fd: int)
      requires Valid() && Full(blocks[owned])
      modifies `blocks, `owned, `current, `seen
      ensures current == owned == |old(blocks)| && |blocks| == owned + 1
      ensures blocks[owned] == old(blocks[owned]) + [fd] + seq(|old(blocks[owned])| - 1, _ => FREE)
      ensures old(seen) <= seen
      ensures forall i :: |old(seen)| <= i < |seen| ==>
        seen[i] == old(Descriptors()) || seen[i] == old(Descriptors()) + Recorded([fd])
    {
      ghost var was := blocks[owned];
      var size := |blocks[owned]|;
      var grown := |blocks|;
      blocks := blocks + [seq(2 * size, _ => FREE)];
      var slot := 0;
      while slot < size
        invariant slot <= size && |blocks| == grown + 1 && blocks[..grown] == old(blocks)
        invariant blocks[grown] == was[..slot] + seq(2 * size - slot, _ => FREE)
        invariant old(seen) <= seen && forall i :: |old(seen)| <= i < |seen| ==> seen[i] == Recorded(was)
        modifies `blocks, `seen
      {
        StoreSlot(grown, slot, blocks[owned][slot]);
        assert blocks[current] == blocks[..grown][current] == was;
        slot := slot + 1;
      }
      assert was[..size] == was;
      StoreSlot(grown, size, fd);
      assert blocks[current] == was;
      owned := grown;
      RecordedCopied(was, fd, size - 1);
      assert blocks[grown] == was + [fd] + seq(size - 1, _ => FREE);
      StoreCurrent(owned);
    }

    /** Records a descriptor: a child sees those before, or those with it. */
    method Add(fd: int)
      requires Valid()
      modifies this
      ensures Valid() && Descriptors() == if fd == FREE then old(Descriptors()) else old(Descriptors()) + {fd}
      ensures old(seen) <= seen && forall i :: |old(seen)| <= i < |seen| ==>
        seen[i] == old(Descriptors()) || seen[i] == Descriptors()
      ensures peak == if Taken(blocks[owned]) > old(peak) then Taken(blocks[owned]) else old(peak)
    {
      hide Recorded, Taken;
      ghost var was := blocks[owned];
      RecordedOne(fd);
      var slot := 0;
      while slot < |blocks[owned]| && blocks[owned][slot] != FREE
        invariant slot <= |blocks[owned]| && forall i :: 0 <= i < slot ==> blocks[owned][i] != FREE
      {
        slot := slot + 1;
      }
      if slot < |blocks[owned]| {
        RecordedPut(was, slot, fd);
        StoreSlot(owned, slot, fd);
      } else {
        FullTaken(was);
        RecordedCopied(was, fd, |was| - 1);
        Grow(fd);
      }
      peak := if Taken(blocks[owned]) > peak then Taken(blocks[owned]) else peak;
    }

    /** Forgets a descriptor: a child sees those before, or those without it. */
    method Remove(fd: int)
      requires Valid()
      modifies `blocks, `seen
      ensures Valid() && Descriptors() == old(Descriptors()) - {fd}
      ensures old(seen) <= seen && forall i :: |old(seen)| <= i < |seen| ==>
        seen[i] == old(Descriptors()) || seen[i] == Descriptors()
    {
      ghost var was := blocks[owned];
      for slot := 0 to |blocks[owned]|
        invariant |blocks| == |old(blocks)| && Freeing(was, blocks[owned], fd, slot)
        invariant old(seen) <= seen && forall i :: |old(seen)| <= i < |seen| ==>
          seen[i] == Recorded(was) || seen[i] == Recorded(was) - {fd}
      {
        if blocks[owned][slot] == fd {
          StoreSlot(owned, slot, FREE);
        }
        FreeingRecorded(was, blocks[owned], fd, slot + 1);
      }
      FreeingRecorded(was, blocks[owned], fd, |was|);
      FewerTaken(was, blocks[owned]);
    }

    /** In a child: what it closes is what is recorded where it was forked. */
    method CloseAll() returns (closed: seq<int>)
      requires current < |blocks|
      ensures (set fd | fd in closed) == Recorded(blocks[current])
      ensures forall fd :: fd in closed <==> fd != FREE && exists i :: 0 <= i < |blocks[current]| && blocks[current][i] == fd
    {
      closed := [];
      var block := blocks[current];
      for slot := 0 to |block|
        invariant forall fd :: fd in closed <==> fd in block[..slot] && fd != FREE
      {
        if block[slot] != FREE {
          closed := closed + [block[slot]];
        }
        assert block[..slot + 1] == block[..slot] + [block[slot]];
      }
      assert block[..|block|] == block;
      assert forall fd :: fd in (set x | x in closed) <==> fd in Recorded(block);
    }

    /** The size of the block in use: it grows only when every slot is taken. */
    method Capacity() returns (size: nat)
      requires Valid()
      ensures size == |blocks[owned]| && size <= if FIRST_SIZE > 2 * peak then FIRST_SIZE else 2 * peak
    {
      return |blocks[owned]|;
    }
  }
}
