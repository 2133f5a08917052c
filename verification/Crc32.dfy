/** CRC-32 eight bytes at a time: the sliced form equals the bit-by-bit one of
    section 8 of RFC 1952, for every string of bytes. Words are the numbers they
    stand for, and xor is defined on their binary digits. */
module Crc32 {
  import opened Common
  import opened Words

  /** Numbers without a binary digit in common: their xor is their sum. */
  lemma XorByte(low: Byte, high: nat)
    ensures Xor(low, 256 * high) == low + 256 * high
  {
    hide Xor, ShiftLeft, Pow2;
    Pow2Byte(0);
    assert Pow2(0) == 1 by { Pow2Zero(); }
    ShiftLeftIs(high, 8);
    XorApart(low, high, 8);
  }

  // The specification, bit by bit

  const POLYNOMIAL: nat := 0xEDB8_8320
  const ONES: nat := 0xFFFF_FFFF

  function BitStep(crc: nat): nat {
    if crc % 2 == 1 then Xor(crc / 2, POLYNOMIAL) else crc / 2
  }

  /** One byte of zeros: eight bit steps. */
  function ByteStep(crc: nat): nat {
    BitStep(BitStep(BitStep(BitStep(BitStep(BitStep(BitStep(BitStep(crc))))))))
  }

  function Update(crc: nat, byte: Byte): nat {
    ByteStep(Xor(crc, byte))
  }

  function UpdateAll(crc: nat, bytes: seq<Byte>): nat {
    if bytes == [] then crc else Update(UpdateAll(crc, bytes[..|bytes| - 1]), bytes[|bytes| - 1])
  }

  function Crc(bytes: seq<Byte>): nat {
    Xor(UpdateAll(ONES, bytes), ONES)
  }

  // The step is linear over xor, and takes eight zero bits off the end

  lemma BitLinear(x: nat, y: nat)
    ensures BitStep(Xor(x, y)) == Xor(BitStep(x), BitStep(y))
  {
    XorHalves(x, y);
    hide Xor;
    var a, b, p := x / 2, y / 2, POLYNOMIAL;
    OddSum(x, y);
    XorZero(p);
    XorZero(a);
    XorZero(b);
    if x % 2 == 1 && y % 2 == 1 {
      XorSelf(p);
      XorZero(Xor(a, b));
      XorPairs(a, p, b, p);
    } else if x % 2 == 1 {
      XorPairs(a, p, b, 0);
    } else if y % 2 == 1 {
      XorPairs(a, 0, b, p);
    }
  }

  lemma OddSum(x: nat, y: nat)
    ensures (x + y) % 2 == 1 <==> x % 2 != y % 2
  {
  }

  lemma ByteLinear(x: nat, y: nat)
    ensures ByteStep(Xor(x, y)) == Xor(ByteStep(x), ByteStep(y))
  {
    hide BitStep, Xor;
    var x1, y1 := BitStep(x), BitStep(y);
    var x2, y2 := BitStep(x1), BitStep(y1);
    var x3, y3 := BitStep(x2), BitStep(y2);
    var x4, y4 := BitStep(x3), BitStep(y3);
    var x5, y5 := BitStep(x4), BitStep(y4);
    var x6, y6 := BitStep(x5), BitStep(y5);
    var x7, y7 := BitStep(x6), BitStep(y6);
    BitLinear(x, y);
    BitLinear(x1, y1);
    BitLinear(x2, y2);
    BitLinear(x3, y3);
    BitLinear(x4, y4);
    BitLinear(x5, y5);
    BitLinear(x6, y6);
    BitLinear(x7, y7);
  }

  lemma ByteShift(x: nat)
    ensures ByteStep(256 * x) == x
  {
    assert BitStep(256 * x) == 128 * x;
    assert BitStep(128 * x) == 64 * x;
    assert BitStep(64 * x) == 32 * x;
    assert BitStep(32 * x) == 16 * x;
    assert BitStep(16 * x) == 8 * x;
    assert BitStep(8 * x) == 4 * x;
    assert BitStep(4 * x) == 2 * x;
  }

  /** `n` bytes of zeros. */
  function Advance(n: nat, crc: nat): nat {
    if n == 0 then crc else Advance(n - 1, ByteStep(crc))
  }

  lemma {:induction false} AdvanceLinear(n: nat, x: nat, y: nat)
    ensures Advance(n, Xor(x, y)) == Xor(Advance(n, x), Advance(n, y))
  {
    hide ByteStep, Xor;
    if n > 0 {
      ByteLinear(x, y);
      AdvanceLinear(n - 1, ByteStep(x), ByteStep(y));
    }
  }

  lemma {:induction false} AdvanceAdd(m: nat, n: nat, x: nat)
    ensures Advance(m, Advance(n, x)) == Advance(m + n, x)
  {
    hide ByteStep;
    if n > 0 {
      AdvanceAdd(m, n - 1, ByteStep(x));
    }
  }

  /** A number's lowest byte and the rest of it, advanced apart. */
  lemma AdvanceSplit(n: nat, low: Byte, high: nat)
    ensures Advance(n + 1, low + 256 * high) == Xor(Advance(n + 1, low), Advance(n, high))
  {
    hide ByteStep, Xor;
    XorByte(low, high);
    AdvanceLinear(n + 1, low, 256 * high);
    ByteShift(high);
  }

  /** What is met after a step counts as if met eight bits up before it. */
  lemma UpdateBefore(x: nat, rest: nat)
    ensures Xor(ByteStep(x), rest) == ByteStep(Xor(x, 256 * rest))
  {
    hide ByteStep, Xor;
    ByteLinear(x, 256 * rest);
    ByteShift(rest);
  }

  // Four bytes at once

  function LittleEndian(b0: Byte, b1: Byte, b2: Byte, b3: Byte): nat {
    b0 + 256 * (b1 + 256 * (b2 + 256 * b3))
  }

  /** Two bytes met one after the other are one number met at once. */
  lemma UpdateTwice(crc: nat, byte: Byte, rest: nat, n: nat)
    ensures Advance(n, Xor(ByteStep(Xor(crc, byte)), rest)) == Advance(n + 1, Xor(crc, byte + 256 * rest))
  {
    hide ByteStep, Xor;
    UpdateBefore(Xor(crc, byte), rest);
    XorGroup(crc, byte, 256 * rest);
    XorByte(byte, rest);
  }

  lemma UpdateFour(crc: nat, b0: Byte, b1: Byte, b2: Byte, b3: Byte)
    ensures Update(Update(Update(Update(crc, b0), b1), b2), b3) == Advance(4, Xor(crc, LittleEndian(b0, b1, b2, b3)))
  {
    hide ByteStep, Xor;
    var c1 := Update(crc, b0);
    var c2 := Update(c1, b1);
    var c3 := Update(c2, b2);
    assert Update(c3, b3) == Advance(1, Xor(ByteStep(Xor(c2, b2)), b3));
    UpdateTwice(c2, b2, b3, 1);
    UpdateTwice(c1, b1, b2 + 256 * b3, 2);
    UpdateTwice(crc, b0, b1 + 256 * (b2 + 256 * b3), 3);
  }

  lemma FourBytes(word: nat)
    requires word < 0x1_0000_0000
    ensures word / 0x100_0000 < 256
    ensures word == word % 256 + 256 * (word / 0x100 % 256 + 256 * (word / 0x1_0000 % 256 + 256 * (word / 0x100_0000)))
  {
    assert word / 0x1_0000 == word / 0x100 / 256 && word / 0x100_0000 == word / 0x1_0000 / 256;
  }

  /** A word advanced is the xor of its four bytes' table entries. */
  lemma AdvanceWord(n: nat, word: nat)
    requires word < 0x1_0000_0000
    ensures Advance(n + 4, word) ==
            Xor(Xor(Xor(Advance(n + 4, word % 256), Advance(n + 3, word / 0x100 % 256)),
                    Advance(n + 2, word / 0x1_0000 % 256)), Advance(n + 1, word / 0x100_0000))
  {
    hide ByteStep, Xor, Advance;
    var d0, d1, d2, d3 := word % 256, word / 0x100 % 256, word / 0x1_0000 % 256, word / 0x100_0000;
    FourBytes(word);
    AdvanceSplit(n + 3, d0, d1 + 256 * (d2 + 256 * d3));
    AdvanceSplit(n + 2, d1, d2 + 256 * d3);
    AdvanceSplit(n + 1, d2, d3);
    var a0, a1, a2, a3 := Advance(n + 4, d0), Advance(n + 3, d1), Advance(n + 2, d2), Advance(n + 1, d3);
    XorGroup(a0, a1, Xor(a2, a3));
    XorGroup(Xor(a0, a1), a2, a3);
  }

  // The tables: entries[0] the remainder of each byte, entries[slice] that
  // with `slice` zero bytes after it

  ghost predicate TableOk(entries: seq<nat>, slice: nat) {
    |entries| == 256 && forall i :: 0 <= i < 256 ==> entries[i] == Advance(slice + 1, i)
  }

  /** A step by table: what the low byte leaves, and the rest moved down. */
  lemma StepByTable(x: nat)
    ensures ByteStep(x) == Xor(x / 256, ByteStep(x % 256))
  {
    hide ByteStep, Xor;
    XorByte(x % 256, x / 256);
    ByteLinear(x % 256, 256 * (x / 256));
    ByteShift(x / 256);
    XorSwap(ByteStep(x % 256), x / 256);
  }

  lemma AdvanceOneMore(n: nat, x: nat)
    ensures Advance(n + 1, x) == ByteStep(Advance(n, x))
  {
    AdvanceAdd(1, n, x);
    assert Advance(1, Advance(n, x)) == Advance(0, ByteStep(Advance(n, x)));
  }

  method BuildTables() returns (tables: seq<seq<nat>>)
    ensures |tables| == 8 && forall slice :: 0 <= slice < 8 ==> TableOk(tables[slice], slice)
  {
    hide Xor;
    var first: seq<nat> := [];
    for index := 0 to 256
      invariant |first| == index && forall i :: 0 <= i < index ==> first[i] == Advance(1, i)
    {
      var value: nat := index;
      for bit := 0 to 8
        invariant value == Bits(bit, index)
      {
        value := if value % 2 == 1 then Xor(value / 2, POLYNOMIAL) else value / 2;
      }
      EightBits(index);
      first := first + [value];
    }
    hide ByteStep, Advance;
    tables := [first];
    for slice := 1 to 8
      invariant |tables| == slice && tables[0] == first && forall k :: 0 <= k < slice ==> TableOk(tables[k], k)
    {
      var entries: seq<nat> := [];
      for index := 0 to 256
        invariant |entries| == index && forall i :: 0 <= i < index ==> entries[i] == Advance(slice + 1, i)
      {
        var previous := tables[slice - 1][index];
        StepByTable(previous);
        AdvanceOneMore(slice, index);
        AdvanceOneMore(0, previous % 256);
        AdvanceNone(previous % 256);
        assert first[previous % 256] == Advance(1, previous % 256);
        entries := entries + [Xor(previous / 256, first[previous % 256])];
      }
      tables := tables + [entries];
    }
  }

  lemma AdvanceNone(x: nat)
    ensures Advance(0, x) == x
  {
  }

  function Bits(n: nat, x: nat): nat {
    if n == 0 then x else BitStep(Bits(n - 1, x))
  }

  lemma EightBits(x: nat)
    ensures Bits(8, x) == ByteStep(x) == Advance(1, x)
  {
    hide BitStep;
    assert Bits(2, x) == BitStep(Bits(1, x));
    assert Bits(4, x) == BitStep(Bits(3, x));
    assert Bits(6, x) == BitStep(Bits(5, x));
    assert Bits(8, x) == BitStep(Bits(7, x));
    assert Advance(1, x) == Advance(0, ByteStep(x));
  }

  // The sliced form

  function Update4(crc: nat, b0: Byte, b1: Byte, b2: Byte, b3: Byte): nat {
    Update(Update(Update(Update(crc, b0), b1), b2), b3)
  }

  /** Eight bytes folded in at once. */
  lemma UpdateEight(crc: nat, b0: Byte, b1: Byte, b2: Byte, b3: Byte, b4: Byte, b5: Byte, b6: Byte, b7: Byte)
    ensures Update4(Update4(crc, b0, b1, b2, b3), b4, b5, b6, b7)
         == Xor(Advance(8, Xor(LittleEndian(b0, b1, b2, b3), crc)), Advance(4, LittleEndian(b4, b5, b6, b7)))
  {
    hide Update, Xor, Advance;
    var first, high := LittleEndian(b0, b1, b2, b3), LittleEndian(b4, b5, b6, b7);
    var half := Update4(crc, b0, b1, b2, b3);
    UpdateFour(crc, b0, b1, b2, b3);
    UpdateFour(half, b4, b5, b6, b7);
    XorSwap(crc, first);
    AdvanceLinear(4, half, high);
    AdvanceAdd(4, 4, Xor(first, crc));
  }

  lemma UpdateLast(crc: nat, bytes: seq<Byte>, at: nat)
    requires at < |bytes|
    ensures UpdateAll(crc, bytes[..at + 1]) == Update(UpdateAll(crc, bytes[..at]), bytes[at])
  {
    assert bytes[..at + 1][..at] == bytes[..at];
  }

  lemma UpdateNextFour(crc: nat, bytes: seq<Byte>, at: nat)
    requires at + 4 <= |bytes|
    ensures UpdateAll(crc, bytes[..at + 4])
         == Update4(UpdateAll(crc, bytes[..at]), bytes[at], bytes[at + 1], bytes[at + 2], bytes[at + 3])
  {
    hide Update;
    UpdateLast(crc, bytes, at);
    UpdateLast(crc, bytes, at + 1);
    UpdateLast(crc, bytes, at + 2);
    UpdateLast(crc, bytes, at + 3);
  }

  const HALF_WORD: nat := 0x1_0000_0000

  lemma WordIsPow2()
    ensures Pow2(32) == HALF_WORD
  {
    assert Pow2(8) == 256;
    assert Pow2(16) == 0x1_0000;
    assert Pow2(24) == 0x100_0000;
    assert Pow2(32) == 0x1_0000_0000;
  }

  lemma XorWord(x: nat, y: nat)
    requires x < HALF_WORD && y < HALF_WORD
    ensures Xor(x, y) < HALF_WORD
  {
    WordIsPow2();
    XorFits(x, y, 32);
  }

  lemma BitFits(x: nat)
    requires x < HALF_WORD
    ensures BitStep(x) < HALF_WORD
  {
    hide Xor;
    XorWord(x / 2, POLYNOMIAL);
  }

  lemma UpdateFits(crc: nat, byte: Byte)
    requires crc < HALF_WORD
    ensures Update(crc, byte) < HALF_WORD
  {
    hide Xor, BitStep;
    XorWord(crc, byte);
    var x1 := BitStep(Xor(crc, byte));
    var x2 := BitStep(x1);
    var x3 := BitStep(x2);
    var x4 := BitStep(x3);
    var x5 := BitStep(x4);
    var x6 := BitStep(x5);
    var x7 := BitStep(x6);
    BitFits(Xor(crc, byte));
    BitFits(x1);
    BitFits(x2);
    BitFits(x3);
    BitFits(x4);
    BitFits(x5);
    BitFits(x6);
    BitFits(x7);
  }

  lemma Update4Fits(crc: nat, b0: Byte, b1: Byte, b2: Byte, b3: Byte)
    requires crc < HALF_WORD
    ensures Update4(crc, b0, b1, b2, b3) < HALF_WORD
  {
    hide Update;
    UpdateFits(crc, b0);
    UpdateFits(Update(crc, b0), b1);
    UpdateFits(Update(Update(crc, b0), b1), b2);
    UpdateFits(Update(Update(Update(crc, b0), b1), b2), b3);
  }

  /** A byte does not reach past the eight low bits. */
  lemma XorAbove(x: nat, byte: Byte)
    ensures Xor(x, byte) / 256 == x / 256
  {
    hide Xor;
    var low, high := x % 256, x / 256;
    XorByte(low, high);
    XorGroup(256 * high, low, byte);
    XorSwap(low, 256 * high);
    XorSwap(256 * high, Xor(low, byte));
    assert Pow2(8) == 256;
    XorFits(low, byte, 8);
    XorByte(Xor(low, byte), high);
  }

  lemma {:induction false} UpdateAllFits(bytes: seq<Byte>)
    ensures UpdateAll(ONES, bytes) < HALF_WORD
  {
    hide Update;
    if bytes != [] {
      UpdateAllFits(bytes[..|bytes| - 1]);
      UpdateFits(UpdateAll(ONES, bytes[..|bytes| - 1]), bytes[|bytes| - 1]);
    }
  }

  /** The polynomial's terms, from the highest bit down: x^26, x^23, x^22, x^16, x^12, x^11,
      x^10, x^8, x^7, x^5, x^4, x^2, x and 1. */
  lemma PolynomialIs()
    ensures POLYNOMIAL == Pow2(5) + Pow2(8) + Pow2(9) + Pow2(15) + Pow2(19) + Pow2(20) + Pow2(21) + Pow2(23) + Pow2(24) +
                          Pow2(26) + Pow2(27) + Pow2(29) + Pow2(30) + Pow2(31)
    ensures ONES == Pow2(32) - 1
  {
    assert Pow2(5) == 0x20;
    assert Pow2(9) == 0x200;
    assert Pow2(15) == 0x8000;
    assert Pow2(19) == 0x8_0000;
    assert Pow2(21) == 0x20_0000;
    assert Pow2(24) == 0x100_0000;
    assert Pow2(27) == 0x800_0000;
    assert Pow2(31) == 0x8000_0000;
  }

  /** A digest as the four bytes it is written as. */
  function Written(crc: nat): seq<Byte>
    requires crc < HALF_WORD
  {
    [crc % 256, crc / 0x100 % 256, crc / 0x1_0000 % 256, crc / 0x100_0000]
  }

  lemma CrcFits(bytes: seq<Byte>)
    ensures Crc(bytes) < HALF_WORD
  {
    hide UpdateAll, Xor;
    UpdateAllFits(bytes);
    XorWord(UpdateAll(ONES, bytes), ONES);
  }

  /** Bytes followed by their own digest have one digest, whatever they are. */
  lemma Residue(bytes: seq<Byte>)
    ensures Crc(bytes) < HALF_WORD && Crc(bytes + Written(Crc(bytes))) == Crc([0, 0, 0, 0])
  {
    hide UpdateAll, Xor, Advance, Update;
    CrcFits(bytes);
    DigestAfter(bytes);
    DigestAfter([]);
    NothingDigested();
    assert [] + [0, 0, 0, 0] == [0, 0, 0, 0];
  }

  /** Of no bytes it is 0. */
  lemma NothingDigested()
    ensures Crc([]) == 0 && Written(0) == [0, 0, 0, 0]
  {
    hide Xor;
    XorSelf(ONES);
  }

  lemma DigestAfter(bytes: seq<Byte>)
    ensures Crc(bytes) < HALF_WORD && Crc(bytes + Written(Crc(bytes))) == Xor(Advance(4, ONES), ONES)
  {
    hide UpdateAll, Xor, Advance, Update;
    CrcFits(bytes);
    var s, crc := UpdateAll(ONES, bytes), Crc(bytes);
    var tail := Written(crc);
    var all := bytes + tail;
    UpdateNextFour(ONES, all, |bytes|);
    assert all[..|bytes|] == bytes && all[..|bytes| + 4] == all;
    assert all[|bytes|] == tail[0] && all[|bytes| + 1] == tail[1] && all[|bytes| + 2] == tail[2] && all[|bytes| + 3] == tail[3];
    UpdateFour(s, tail[0], tail[1], tail[2], tail[3]);
    FourBytes(crc);
    assert LittleEndian(tail[0], tail[1], tail[2], tail[3]) == crc;
    XorGroup(s, s, ONES);
    XorSelf(s);
    XorZero(ONES);
  }

  /** The eight look-ups of one step of the loop, xored in their order. */
  function Sliced(tables: seq<seq<nat>>, low: nat, high: nat): nat
    requires |tables| == 8 && forall k :: 0 <= k < 8 ==> |tables[k]| == 256
    requires low < HALF_WORD && high < HALF_WORD
  {
    Xor(Xor(Xor(Xor(Xor(Xor(Xor(
      tables[7][low % 256], tables[6][low / 0x100 % 256]), tables[5][low / 0x1_0000 % 256]), tables[4][low / 0x100_0000]),
      tables[3][high % 256]), tables[2][high / 0x100 % 256]), tables[1][high / 0x1_0000 % 256]), tables[0][high / 0x100_0000])
  }

  lemma XorRegroup(w: nat, e: nat, f: nat, g: nat, h: nat)
    ensures Xor(w, Xor(Xor(Xor(e, f), g), h)) == Xor(Xor(Xor(Xor(w, e), f), g), h)
  {
    hide Xor;
    XorGroup(w, Xor(Xor(e, f), g), h);
    XorGroup(w, Xor(e, f), g);
    XorGroup(w, e, f);
  }

  lemma SlicedAdvances(tables: seq<seq<nat>>, low: nat, high: nat)
    requires |tables| == 8 && forall slice :: 0 <= slice < 8 ==> |tables[slice]| == 256 && TableOk(tables[slice], slice)
    requires low < HALF_WORD && high < HALF_WORD
    ensures Sliced(tables, low, high) == Xor(Advance(8, low), Advance(4, high))
  {
    hide Xor, Advance;
    assert forall k :: 0 <= k < 8 ==> |tables[k]| == 256;
    AdvanceWord(4, low);
    AdvanceWord(0, high);
    XorRegroup(Advance(8, low), Advance(4, high % 256), Advance(3, high / 0x100 % 256),
               Advance(2, high / 0x1_0000 % 256), Advance(1, high / 0x100_0000));
  }

  /** The tail's step, one byte by one look-up. */
  lemma TailStep(first: seq<nat>, crc: nat, byte: Byte)
    requires TableOk(first, 0)
    ensures Xor(first[Xor(crc, byte) % 256], crc / 256) == Update(crc, byte)
  {
    hide Xor, ByteStep;
    var x := Xor(crc, byte);
    StepByTable(x);
    XorAbove(crc, byte);
    XorSwap(x / 256, ByteStep(x % 256));
    assert first[x % 256] == Advance(1, x % 256) == Advance(0, ByteStep(x % 256));
  }

  method Crc32(tables: seq<seq<nat>>, bytes: seq<Byte>) returns (crc: nat)
    requires |tables| == 8 && forall slice :: 0 <= slice < 8 ==> TableOk(tables[slice], slice)
    ensures crc == Crc(bytes) && crc < HALF_WORD
  {
    hide Xor, Update, Update4, Advance, Sliced;
    crc := ONES;
    var at: nat := 0;
    assert bytes[..0] == [];
    while |bytes| - at >= 8
      invariant at <= |bytes| && crc == UpdateAll(ONES, bytes[..at]) && crc < HALF_WORD
    {
      var low := Xor(LittleEndian(bytes[at], bytes[at + 1], bytes[at + 2], bytes[at + 3]), crc);
      var high := LittleEndian(bytes[at + 4], bytes[at + 5], bytes[at + 6], bytes[at + 7]);
      XorWord(LittleEndian(bytes[at], bytes[at + 1], bytes[at + 2], bytes[at + 3]), crc);
      SlicedAdvances(tables, low, high);
      UpdateEight(crc, bytes[at], bytes[at + 1], bytes[at + 2], bytes[at + 3],
                  bytes[at + 4], bytes[at + 5], bytes[at + 6], bytes[at + 7]);
      UpdateNextFour(ONES, bytes, at);
      UpdateNextFour(ONES, bytes, at + 4);
      Update4Fits(crc, bytes[at], bytes[at + 1], bytes[at + 2], bytes[at + 3]);
      Update4Fits(UpdateAll(ONES, bytes[..at + 4]), bytes[at + 4], bytes[at + 5], bytes[at + 6], bytes[at + 7]);
      crc := Sliced(tables, low, high);
      at := at + 8;
    }
    while at < |bytes|
      invariant at <= |bytes| && crc == UpdateAll(ONES, bytes[..at]) && crc < HALF_WORD
    {
      TailStep(tables[0], crc, bytes[at]);
      UpdateLast(ONES, bytes, at);
      UpdateFits(crc, bytes[at]);
      crc := Xor(tables[0][Xor(crc, bytes[at]) % 256], crc / 256);
      at := at + 1;
    }
    assert bytes[..at] == bytes;
    XorWord(crc, ONES);
    crc := Xor(crc, ONES);
  }
}
