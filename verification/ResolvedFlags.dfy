/** One flag a message, resolved or not: as a list of booleans, the form the
    confirmed sends reason with. */
module Flags {

  /** How many flags are not set. */
  function Clear(flags: seq<bool>): nat {
    if flags == [] then 0 else Clear(flags[..|flags| - 1]) + if flags[|flags| - 1] then 0 else 1
  }

  /** Sets a range. */
  function Mark(flags: seq<bool>, begin: nat, end: nat): (marked: seq<bool>)
    requires begin <= end <= |flags|
    ensures |marked| == |flags|
  {
    seq(|flags|, i requires 0 <= i < |flags| => flags[i] || begin <= i < end)
  }

  lemma {:induction false} ClearAppend(left: seq<bool>, right: seq<bool>)
    ensures Clear(left + right) == Clear(left) + Clear(right)
  {
    if right == [] {
      assert left + right == left;
    } else {
      assert (left + right)[..|left + right| - 1] == left + right[..|right| - 1];
      ClearAppend(left, right[..|right| - 1]);
    }
  }

  lemma {:induction false} ClearNone(flags: seq<bool>)
    ensures Clear(flags) <= |flags|
    ensures Clear(flags) == 0 <==> forall i :: 0 <= i < |flags| ==> flags[i]
  {
    if flags != [] {
      ClearNone(flags[..|flags| - 1]);
      assert forall i :: 0 <= i < |flags| - 1 ==> flags[..|flags| - 1][i] == flags[i];
    }
  }

  lemma {:induction false} ClearAll(flags: seq<bool>)
    ensures Clear(flags) == |flags| <==> forall i :: 0 <= i < |flags| ==> !flags[i]
  {
    if flags != [] {
      ClearAll(flags[..|flags| - 1]);
      ClearNone(flags[..|flags| - 1]);
      assert forall i :: 0 <= i < |flags| - 1 ==> flags[..|flags| - 1][i] == flags[i];
    }
  }

  lemma ClearSplit(flags: seq<bool>, begin: nat, end: nat)
    requires begin <= end <= |flags|
    ensures Clear(flags) == Clear(flags[..begin]) + Clear(flags[begin..end]) + Clear(flags[end..])
  {
    hide Clear;
    ClearAppend(flags[..begin], flags[begin..end]);
    assert flags[..begin] + flags[begin..end] == flags[..end];
    ClearAppend(flags[..end], flags[end..]);
    assert flags[..end] + flags[end..] == flags;
  }

  lemma MarkParts(flags: seq<bool>, begin: nat, end: nat)
    requires begin <= end <= |flags|
    ensures Mark(flags, begin, end)[..begin] == flags[..begin]
    ensures Mark(flags, begin, end)[end..] == flags[end..]
    ensures Clear(Mark(flags, begin, end)[begin..end]) == 0
  {
    ClearNone(Mark(flags, begin, end)[begin..end]);
  }

  /** A flag is set if it was or the range holds it. */
  ghost predicate MarkedIn(flags: seq<bool>, now: seq<bool>, begin: nat, end: nat) {
    |now| == |flags| && forall i :: 0 <= i < |now| ==> (now[i] <==> flags[i] || begin <= i < end)
  }

  lemma MarkIs(flags: seq<bool>, begin: nat, end: nat)
    requires begin <= end <= |flags|
    ensures MarkedIn(flags, Mark(flags, begin, end), begin, end)
  {
  }

  /** As many as there are flags that are not set. */
  lemma {:induction false} ClearIs(flags: seq<bool>)
    ensures Clear(flags) == |set i | 0 <= i < |flags| && !flags[i]|
  {
    var clear := set i | 0 <= i < |flags| && !flags[i];
    if flags == [] {
      assert clear == {};
    } else {
      var last := |flags| - 1;
      var before := set i | 0 <= i < last && !flags[..last][i];
      ClearIs(flags[..last]);
      assert clear == before + if flags[last] then {} else {last};
    }
  }

  /** Marking a range clears the count by what was not set in it, and only
      within it. */
  lemma ClearMarked(flags: seq<bool>, begin: nat, end: nat)
    requires begin <= end <= |flags|
    ensures Clear(Mark(flags, begin, end)) + Clear(flags[begin..end]) == Clear(flags)
  {
    ClearSplit(flags, begin, end);
    ClearSplit(Mark(flags, begin, end), begin, end);
    MarkParts(flags, begin, end);
  }

  /** The same, seen from a slice of the flags that holds the range. */
  lemma ClearMarkedWithin(flags: seq<bool>, begin: nat, end: nat, from: nat, to: nat)
    requires from <= begin <= end <= to <= |flags|
    ensures Clear(Mark(flags, begin, end)[from..to]) + Clear(flags[begin..end]) == Clear(flags[from..to])
  {
    MarkWithin(flags, begin, end, from, to);
    SliceWithin(flags, begin, end, from, to);
    hide Mark, Clear;
    ClearMarked(flags[from..to], begin - from, end - from);
  }

  lemma MarkWithin(flags: seq<bool>, begin: nat, end: nat, from: nat, to: nat)
    requires from <= begin <= end <= to <= |flags|
    ensures Mark(flags, begin, end)[from..to] == Mark(flags[from..to], begin - from, end - from)
  {
  }

  lemma SliceWithin(flags: seq<bool>, begin: nat, end: nat, from: nat, to: nat)
    requires from <= begin <= end <= to <= |flags|
    ensures flags[from..to][begin - from..end - from] == flags[begin..end]
  {
    var left, right := flags[from..to][begin - from..end - from], flags[begin..end];
    forall i | 0 <= i < |left| ensures left[i] == right[i] {
      assert left[i] == flags[from..to][begin - from + i] == flags[begin + i];
    }
  }
}

/** The flags in 64-bit words: each operation refines the one on a sequence of
    booleans. */
module ResolvedFlags {
  import opened Common
  import opened Flags
  import opened Words

  /** The bits set among the first n: all of them for 64, the processor's
      population count. */
  function BitsSet(word: nat, n: nat): nat {
    if n == 0 then 0 else BitsSet(word, n - 1) + if Bit(word, n - 1) then 1 else 0
  }

  /** (span == 64 ? ~0 : (1 << span) - 1) << bit, which keeps within 64 bits. */
  function MaskOf(bit: nat, span: nat): nat {
    ShiftLeft(Pow2(span) - 1, bit)
  }

  /** The mask's bits are those of [bit, bit + span). */
  lemma {:induction false} BitOfMask(bit: nat, span: nat, j: nat)
    ensures Bit(MaskOf(bit, span), j) <==> bit <= j < bit + span
    decreases bit + span
  {
    if bit > 0 {
      assert MaskOf(bit, span) == 2 * MaskOf(bit - 1, span);
      if j > 0 { BitOfMask(bit - 1, span, j - 1); }
    } else if span > 0 {
      assert MaskOf(0, span) == 2 * MaskOf(0, span - 1) + 1;
      if j > 0 { BitOfMask(0, span - 1, j - 1); }
    } else {
      BitOfZero(j);
    }
  }

  /** No bit of the mask is shifted out of its word. */
  lemma {:induction false} MaskFits(bit: nat, span: nat)
    ensures MaskOf(bit, span) < Pow2(bit + span)
  {
    if bit > 0 {
      MaskFits(bit - 1, span);
    }
  }

  // The packed flags.

  predicate FlagAt(words: seq<nat>, index: nat)
    requires index < 64 * |words|
  {
    Bit(words[index / 64], index % 64)
  }

  function Unpacked(words: seq<nat>): (flags: seq<bool>)
    ensures |flags| == 64 * |words|
  {
    seq(64 * |words|, i requires 0 <= i < 64 * |words| => FlagAt(words, i))
  }

  /** How many bits of a mask are not set in a word, counted among the first n. */
  lemma {:induction false} NewlySet(words: seq<nat>, at: nat, bit: nat, span: nat, n: nat)
    requires at < |words| && bit + span <= 64 && bit <= n <= 64
    ensures BitsSet(AndNot(MaskOf(bit, span), words[at]), n)
         == Clear(Unpacked(words)[64 * at + bit..64 * at + if n < bit + span then n else bit + span])
  {
    hide AndNot, MaskOf, Bit, Unpacked, Clear;
    var flags := Unpacked(words);
    if n == bit {
      NoneBelow(words[at], bit, span, n);
      NothingMarked(flags, 64 * at + bit);
    } else {
      NewlySet(words, at, bit, span, n - 1);
      BitOfAndNot(MaskOf(bit, span), words[at], n - 1);
      BitOfMask(bit, span, n - 1);
      if n - 1 < bit + span {
        ClearNext(flags, 64 * at + bit, 64 * at + n);
        FlagOf(words, at, n - 1);
      }
    }
  }

  lemma FlagOf(words: seq<nat>, at: nat, j: nat)
    requires at < |words| && j < 64
    ensures Unpacked(words)[64 * at + j] == Bit(words[at], j)
  {
    hide Bit;
    assert (64 * at + j) / 64 == at && (64 * at + j) % 64 == j;
  }

  lemma ClearNext(flags: seq<bool>, begin: nat, end: nat)
    requires begin < end <= |flags|
    ensures Clear(flags[begin..end]) == Clear(flags[begin..end - 1]) + if flags[end - 1] then 0 else 1
  {
    assert flags[begin..end][..end - 1 - begin] == flags[begin..end - 1];
  }

  lemma {:induction false} NoneBelow(word: nat, bit: nat, span: nat, n: nat)
    requires n <= bit
    ensures BitsSet(AndNot(MaskOf(bit, span), word), n) == 0
  {
    hide AndNot, MaskOf, Bit;
    if n > 0 {
      NoneBelow(word, bit, span, n - 1);
      BitOfAndNot(MaskOf(bit, span), word, n - 1);
      BitOfMask(bit, span, n - 1);
    }
  }

  /** One word's part of a range, or-ed in, marks exactly that part. */
  lemma MaskedWord(words: seq<nat>, at: nat, bit: nat, span: nat)
    requires at < |words| && bit + span <= 64
    ensures Unpacked(words[at := Or(words[at], MaskOf(bit, span))])
         == Mark(Unpacked(words), 64 * at + bit, 64 * at + bit + span)
  {
    var marked := words[at := Or(words[at], MaskOf(bit, span))];
    forall i | 0 <= i < 64 * |words|
      ensures FlagAt(marked, i) == (FlagAt(words, i) || 64 * at + bit <= i < 64 * at + bit + span)
    {
      if i / 64 == at {
        BitOfOr(words[at], MaskOf(bit, span), i % 64);
        BitOfMask(bit, span, i % 64);
      }
    }
  }

  lemma MarkJoin(flags: seq<bool>, begin: nat, middle: nat, end: nat)
    requires begin <= middle <= end <= |flags|
    ensures Mark(Mark(flags, begin, middle), middle, end) == Mark(flags, begin, end)
    ensures Clear(flags[begin..middle]) + Clear(flags[middle..end]) == Clear(flags[begin..end])
    ensures Mark(flags, begin, middle)[middle..end] == flags[middle..end]
  {
    assert flags[begin..end] == flags[begin..middle] + flags[middle..end];
    ClearAppend(flags[begin..middle], flags[middle..end]);
  }

  lemma NothingMarked(flags: seq<bool>, begin: nat)
    requires begin <= |flags|
    ensures Mark(flags, begin, begin) == flags && Clear(flags[begin..begin]) == 0
  {
  }

  lemma OrWithMaskFits(word: nat, bit: nat, span: nat)
    requires word < WORD && bit + span <= 64
    ensures Or(word, MaskOf(bit, span)) < WORD
  {
    MaskFits(bit, span);
    Pow2Monotone(bit + span, BITS);
    Pow2Word();
    OrFits(word, MaskOf(bit, span), BITS);
  }

  /** One step of a range: the flags of [begin, from) set before it, those of
      [begin, from + span) after, `span` of them in one word. */
  lemma RangeStep(words: seq<nat>, was: seq<bool>, begin: nat, from: nat, span: nat)
    requires begin <= from && from + span <= |was| == 64 * |words|
    requires 0 < span <= 64 - from % 64
    requires Unpacked(words) == Mark(was, begin, from)
    ensures Unpacked(words[from / 64 := Or(words[from / 64], MaskOf(from % 64, span))]) == Mark(was, begin, from + span)
    ensures Clear(was[begin..from]) + BitsSet(AndNot(MaskOf(from % 64, span), words[from / 64]), BITS)
         == Clear(was[begin..from + span])
  {
    hide AndNot, MaskOf, BitsSet, Or, Mark, Clear, Unpacked;
    NewlySet(words, from / 64, from % 64, span, BITS);
    MaskedWord(words, from / 64, from % 64, span);
    MarkJoin(was, begin, from, from + span);
  }

  class ResolvedFlags {
    var words: seq<nat>

    ghost predicate Valid()
      reads this
    {
      forall k :: 0 <= k < |words| ==> words[k] < WORD
    }

    ghost function Contents(): seq<bool>
      reads this
    {
      Unpacked(words)
    }

    method Assign(count: nat)
      modifies this
      ensures Valid() && count <= |Contents()| < count + 64
      ensures forall i :: 0 <= i < |Contents()| ==> !Contents()[i]
    {
      words := seq((count + 63) / 64, _ => 0);
      forall i | 0 <= i < 64 * |words|
        ensures !FlagAt(words, i)
      {
        BitOfZero(i % 64);
      }
    }

    method Get(index: nat) returns (flag: bool)
      requires Valid() && index < |Contents()|
      ensures flag == Contents()[index]
    {
      flag := Bit(words[index / 64], index % 64);
    }

    /** One flag set, by or-ing one bit into its word. */
    method Set(index: nat)
      requires Valid() && index < |Contents()|
      modifies this
      ensures Valid() && Contents() == Mark(old(Contents()), index, index + 1) == old(Contents())[index := true]
    {
      var at, bit := index / 64, index % 64;
      MaskedWord(words, at, bit, 1);
      OrWithMaskFits(words[at], bit, 1);
      words := words[at := Or(words[at], ShiftLeft(1, bit))];
    }

    /** Refines `Mark` and `Clear` for a range of any alignment, by whole words where it
        can. */
    method SetRange(begin: nat, end: nat) returns (newly: nat)
      requires Valid() && begin <= end <= |Contents()|
      modifies this
      ensures Valid()
      ensures Contents() == Mark(old(Contents()), begin, end)
      ensures newly == Clear(old(Contents())[begin..end])
      ensures MarkedIn(old(Contents()), Contents(), begin, end)
    {
      hide MarkedIn, AndNot, MaskOf, BitsSet, Or, Mark, Clear, Unpacked;
      MarkIs(Contents(), begin, end);
      newly := 0;
      ghost var was := Contents();
      var from := begin;
      NothingMarked(was, begin);
      while from < end
        invariant begin <= from <= end <= 64 * |words| == |was|
        invariant Valid() && Contents() == Mark(was, begin, from)
        invariant newly == Clear(was[begin..from])
      {
        var bit := from % 64;
        var span := if 64 - bit < end - from then 64 - bit else end - from;
        var at, mask := from / 64, MaskOf(bit, span);
        RangeStep(words, was, begin, from, span);
        OrWithMaskFits(words[at], bit, span);
        newly := newly + BitsSet(AndNot(mask, words[at]), BITS);
        words := words[at := Or(words[at], mask)];
        from := from + span;
      }
    }
  }
}
