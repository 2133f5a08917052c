/** The 64-bit XXH3 hash of a body over 240 bytes. The specification is the one
    chain of stripes of the xxHash 0.8 specification; the program sums the even
    and the odd stripes apart, joins them before each scramble, and mixes lanes
    one at a time or two at a time by SSE2. The secret is a parameter. */
module Xxh3 {
  import opened Common
  import opened Words

  type Word = U64
  type Secret = s: seq<Byte> | |s| == 192 witness seq(192, _ => 0)

  const HALF: nat := 0x1_0000_0000
  const STRIPE: nat := 64
  const STRIPES_PER_BLOCK: nat := 16
  const BLOCK: nat := 1024

  const PRIME32_1: Word := 0x9E37_79B1
  const PRIME32_2: Word := 0x85EB_CA77
  const PRIME32_3: Word := 0xC2B2_AE3D
  const PRIME64_1: Word := 0x9E37_79B1_85EB_CA87
  const PRIME64_2: Word := 0xC2B2_AE3D_27D4_EB4F
  const PRIME64_3: Word := 0x1656_67B1_9E37_79F9
  const PRIME64_4: Word := 0x85EB_CA77_C2B2_AE63
  const PRIME64_5: Word := 0x27D4_EB2F_1656_67C5

  // Words

  function Plus(left: nat, right: nat): Word {
    (left + right) % WORD
  }

  function Times(left: nat, right: nat): Word {
    (left * right) % WORD
  }

  function XorWord(left: Word, right: Word): Word {
    XorWordFits(left, right);
    Xor(left, right)
  }

  lemma XorWordFits(left: Word, right: Word)
    ensures Xor(left, right) < WORD
  {
    Pow2Word();
    XorFits(left, right, BITS);
  }

  lemma PlusAgain(x: nat, y: nat)
    ensures Plus(x % WORD, y) == Plus(x, y) == Plus(x, y % WORD)
  {
    PlusRest(x, y);
    PlusRest(y, x);
  }

  lemma PlusRest(x: nat, y: nat)
    ensures (x % WORD + y) % WORD == (x + y) % WORD
  {
    var part := x % WORD + y;
    DividedBy(x + y, x / WORD + part / WORD, part % WORD);
  }

  /** The product of two halves fits a word. */
  lemma HalvesFit(left: nat, right: nat)
    requires left < HALF && right < HALF
    ensures left * right <= (HALF - 1) * (HALF - 1) < WORD
  {
    MulMonotone(left, HALF - 1, right);
    MulMonotone(right, HALF - 1, HALF - 1);
  }

  lemma MulMonotone(x: nat, y: nat, z: nat)
    requires x <= y
    ensures x * z <= y * z
  {
    assert y * z == x * z + (y - x) * z;
  }

  /** The product of two halves. */
  function TimesHalves(left: nat, right: nat): Word
    requires left < HALF && right < HALF
  {
    HalvesFit(left, right);
    left * right
  }

  /** The product of a word's two halves. */
  function HalfProduct(word: Word): Word {
    TimesHalves(word % HALF, word / HALF)
  }

  /** The 128-bit product of two words, its halves xored together. */
  function Fold(left: Word, right: Word): Word {
    HighFits(left, right);
    XorWord((left * right) % WORD, left * right / WORD)
  }

  lemma HighFits(left: Word, right: Word)
    ensures left * right / WORD < WORD
  {
    MulMonotone(left, WORD - 1, right);
    MulMonotone(right, WORD - 1, WORD - 1);
  }

  /** The eight bytes from a place on, as a little-endian number. */
  function Read64(bytes: seq<Byte>, at: nat): Word
    requires at + 8 <= |bytes|
  {
    var b: seq<nat> := bytes[at..at + 8];
    b[0] + 0x100 * b[1] + 0x1_0000 * b[2] + 0x100_0000 * b[3] + 0x1_0000_0000 * b[4] + 0x100_0000_0000 * b[5] +
    0x1_0000_0000_0000 * b[6] + 0x100_0000_0000_0000 * b[7]
  }

  // The specification: one chain

  type Lanes = s: seq<Word> | |s| == 8 witness [0, 0, 0, 0, 0, 0, 0, 0]

  const INITIAL: Lanes :=
    [PRIME32_3, PRIME64_1, PRIME64_2, PRIME64_3, PRIME64_4, PRIME32_2, PRIME64_5, PRIME32_1]

  const ZEROS: Lanes := [0, 0, 0, 0, 0, 0, 0, 0]

  /** lane ^ 1 */
  function Partner(lane: nat): (p: nat)
    requires lane < 8
    ensures p < 8 && p != lane && p / 2 == lane / 2
  {
    if lane % 2 == 0 then lane + 1 else lane - 1
  }

  function Product(body: seq<Byte>, at: nat, secret: Secret, key: nat, lane: nat): Word
    requires at + STRIPE <= |body| && key + STRIPE <= 192 && lane < 8
  {
    HalfProduct(XorWord(Read64(body, at + 8 * lane), Read64(secret, key + 8 * lane)))
  }

  /** What a stripe adds to a lane: its partner's bytes and its own product. */
  function Added(body: seq<Byte>, at: nat, secret: Secret, key: nat, lane: nat): nat
    requires at + STRIPE <= |body| && key + STRIPE <= 192 && lane < 8
  {
    Read64(body, at + 8 * Partner(lane)) + Product(body, at, secret, key, lane)
  }

  function Striped(lanes: Lanes, body: seq<Byte>, at: nat, secret: Secret, key: nat): Lanes
    requires at + STRIPE <= |body| && key + STRIPE <= 192
  {
    seq(8, lane requires 0 <= lane < 8 => Plus(lanes[lane], Added(body, at, secret, key, lane)))
  }

  function ScrambledLane(value: Word, key: Word): Word {
    Times(XorWord(XorWord(value, value / 0x8000_0000_0000), key), PRIME32_1)
  }

  function Scrambled(lanes: Lanes, secret: Secret, key: nat): Lanes
    requires key + STRIPE <= 192
  {
    seq(8, lane requires 0 <= lane < 8 => ScrambledLane(lanes[lane], Read64(secret, key + 8 * lane)))
  }

  /** The first n stripes from a place on, one after another. */
  function Chain(lanes: Lanes, body: seq<Byte>, start: nat, secret: Secret, n: nat): Lanes
    requires start + n * STRIPE <= |body| && n <= STRIPES_PER_BLOCK
  {
    if n == 0 then lanes
    else Striped(Chain(lanes, body, start, secret, n - 1), body, start + (n - 1) * STRIPE, secret, (n - 1) * 8)
  }

  /** The first n whole blocks, the lanes scrambled after each. */
  function Blocks(body: seq<Byte>, secret: Secret, n: nat): Lanes
    requires n * BLOCK <= |body|
  {
    if n == 0 then INITIAL
    else Scrambled(Chain(Blocks(body, secret, n - 1), body, (n - 1) * BLOCK, secret, STRIPES_PER_BLOCK), secret, 128)
  }

  /** The sum of the first n folded pairs of lanes. */
  function Merged(size: nat, lanes: Lanes, secret: Secret, n: nat): Word
    requires n <= 4
  {
    if n == 0 then Times(size, PRIME64_1)
    else Plus(Merged(size, lanes, secret, n - 1),
              Fold(XorWord(lanes[2 * n - 2], Read64(secret, 11 + 16 * (n - 1))),
                   XorWord(lanes[2 * n - 1], Read64(secret, 19 + 16 * (n - 1)))))
  }

  function Avalanche(hash: Word): Word {
    var mixed := Times(XorWord(hash, hash / 0x20_0000_0000), 0x1656_6791_9E37_79F9);
    XorWord(mixed, mixed / HALF)
  }

  /** All the lanes' stripes: whole blocks, the last block's whole stripes, and the last 64 bytes. */
  function Mixed(body: seq<Byte>, secret: Secret): Lanes
    requires |body| > 240
  {
    var blocks := (|body| - 1) / BLOCK;
    var stripes := (|body| - 1 - blocks * BLOCK) / STRIPE;
    Striped(Chain(Blocks(body, secret, blocks), body, blocks * BLOCK, secret, stripes),
            body, |body| - STRIPE, secret, 121)
  }

  function LongHash(body: seq<Byte>, secret: Secret): Word
    requires |body| > 240
  {
    Avalanche(Merged(|body|, Mixed(body, secret), secret, 4))
  }

  // The mixing loses nothing

  /** A word xored with itself shifted right by half its bits or more: once more, and it is
      the word again. */
  lemma ShiftedBack(x: Word, n: nat)
    requires 32 <= n
    ensures var y := Xor(x, ShiftRight(x, n)); Xor(y, ShiftRight(y, n)) == x
  {
    hide Xor, Pow2, ShiftRight;
    var high := ShiftRight(x, n);
    XorShifted(x, high, n);
    ShiftRightOn(x, n, n);
    Pow2Word();
    Pow2Grows(64, n + n);
    ShiftedOut(x, n + n);
    XorZero(high);
    XorGroup(x, high, high);
    XorSelf(high);
    XorZero(x);
  }

  lemma {:induction false} Pow2Grows(m: nat, n: nat)
    requires m <= n
    ensures Pow2(m) <= Pow2(n)
  {
    if m < n {
      Pow2Grows(m, n - 1);
    }
  }

  /** A product by an odd number, modulo 2^64, and that by its inverse. */
  lemma TimesBack(x: Word, factor: nat, inverse: nat, k: nat)
    requires factor * inverse == k * WORD + 1
    ensures Times(Times(x, factor), inverse) == x
  {
    var a, r := x * factor / WORD, x * factor % WORD;
    assert x * factor == a * WORD + r;
    Across(x, factor, inverse, k, a, r);
    var upper := x * k - a * inverse;
    assert r * inverse == upper * WORD + x;
    if upper < 0 {
      MulMonotone(1, -upper, WORD);
      assert false;
    }
    DividedBy(r * inverse, upper, x);
  }

  lemma Across(x: nat, factor: nat, inverse: nat, k: nat, a: nat, r: nat)
    requires factor * inverse == k * WORD + 1 && x * factor == a * WORD + r
    ensures r * inverse == (x * k - a * inverse) * WORD + x
  {
    assert (x * factor) * inverse == x * (factor * inverse);
    assert (a * WORD + r) * inverse == (a * inverse) * WORD + r * inverse;
    assert x * (k * WORD + 1) == (x * k) * WORD + x;
  }

  const MIX_INVERSE: Word := 0x08DA_8EE4_1D6D_F849
  const PRIME32_1_INVERSE: Word := 0xCFA4_A56B_0E8B_2F51

  function AvalancheBack(hash: Word): Word {
    var mixed := Times(XorWord(hash, hash / HALF), MIX_INVERSE);
    XorWord(mixed, mixed / 0x20_0000_0000)
  }

  /** The shifts of the mixing as divisions. */
  lemma Shifts(x: nat)
    ensures ShiftRight(x, 32) == x / HALF && ShiftRight(x, 37) == x / 0x20_0000_0000 && ShiftRight(x, 47) == x / 0x8000_0000_0000
  {
    hide ShiftRight;
    ShiftRightOn(x, 8, 8);
    ShiftRightOn(x, 16, 8);
    ShiftRightOn(x, 24, 8);
    ShiftRightOn(x, 32, 5);
    ShiftRightOn(x, 32, 8);
    ShiftRightOn(x, 40, 7);
    ShiftRightByte(x);
    ShiftRightByte(x / 0x100);
    ShiftRightByte(x / 0x1_0000);
    ShiftRightByte(x / 0x100_0000);
    ShiftRightByte(x / HALF);
    ShiftRightFew(x / HALF);
    ShiftRightFew(x / 0x100_0000_0000);
  }

  lemma ShiftRightFew(x: nat)
    ensures ShiftRight(x, 5) == x / 32 && ShiftRight(x, 7) == x / 128
  {
    hide ShiftRight;
    ShiftRightOn(x, 4, 1);
    ShiftRightOn(x, 4, 2);
    ShiftRightOn(x, 6, 1);
    ShiftRightFour(x);
    ShiftRightOne(x / 16);
    ShiftRightOne(x / 64);
  }

  /** No two sums have the same hash. */
  lemma AvalancheUndone(hash: Word)
    ensures AvalancheBack(Avalanche(hash)) == hash
  {
    hide Xor, Times, ShiftRight;
    var first := XorWord(hash, hash / 0x20_0000_0000);
    var second := Times(first, 0x1656_6791_9E37_79F9);
    var third := XorWord(second, second / HALF);
    Shifts(hash);
    Shifts(first);
    Shifts(second);
    Shifts(third);
    ShiftedBack(hash, 37);
    TimesBack(first, 0x1656_6791_9E37_79F9, MIX_INVERSE, 0xC5_C548_93EA_DCB1);
    ShiftedBack(second, 32);
  }

  function ScrambledBack(value: Word, key: Word): Word {
    var mixed := XorWord(Times(value, PRIME32_1_INVERSE), key);
    XorWord(mixed, mixed / 0x8000_0000_0000)
  }

  /** Nor do two values of a lane scramble to one. */
  lemma ScrambleUndone(value: Word, key: Word)
    ensures ScrambledBack(ScrambledLane(value, key), key) == value
  {
    hide Xor, Times, ShiftRight;
    var first := XorWord(value, value / 0x8000_0000_0000);
    Shifts(value);
    Shifts(first);
    var second := XorWord(first, key);
    TimesBack(second, PRIME32_1, PRIME32_1_INVERSE, 0x8054_9D2C);
    XorGroup(first, key, key);
    XorSelf(key);
    XorZero(first);
    ShiftedBack(value, 47);
  }

  // Two chains in place of one

  /** Two chains' lanes added up. */
  function Joined(even: Lanes, odd: Lanes): Lanes {
    seq(8, lane requires 0 <= lane < 8 => Plus(even[lane], odd[lane]))
  }

  lemma JoinedZeros(even: Lanes)
    ensures Joined(even, ZEROS) == even
  {
  }

  lemma PlusRight(x: nat, y: nat, z: nat)
    ensures Plus(Plus(x, y), z) == Plus(Plus(x, z), y)
  {
    PlusAgain(x + y, z);
    PlusAgain(x + z, y);
  }

  lemma PlusLeft(x: nat, y: nat, z: nat)
    ensures Plus(x, Plus(y, z)) == Plus(Plus(x, y), z)
  {
    PlusAgain(x + y, z);
    PlusAgain(x, y + z);
  }

  /** A stripe mixed into either chain is a stripe mixed into their sum. */
  lemma StripedJoined(even: Lanes, odd: Lanes, body: seq<Byte>, at: nat, secret: Secret, key: nat)
    requires at + STRIPE <= |body| && key + STRIPE <= 192
    ensures Joined(Striped(even, body, at, secret, key), odd) == Striped(Joined(even, odd), body, at, secret, key)
    ensures Joined(even, Striped(odd, body, at, secret, key)) == Striped(Joined(even, odd), body, at, secret, key)
  {
    hide Plus, Added;
    var striped := Striped(Joined(even, odd), body, at, secret, key);
    forall lane | 0 <= lane < 8
      ensures Joined(Striped(even, body, at, secret, key), odd)[lane] == striped[lane]
      ensures Joined(even, Striped(odd, body, at, secret, key))[lane] == striped[lane]
    {
      var added := Added(body, at, secret, key, lane);
      PlusRight(even[lane], added, odd[lane]);
      PlusLeft(even[lane], odd[lane], added);
    }
  }

  // Lane by lane

  /** What a lane has once some of what a stripe adds is in. */
  function Partly(value: Word, body: seq<Byte>, at: nat, secret: Secret, key: nat, lane: nat, past: nat): Word
    requires at + STRIPE <= |body| && key + STRIPE <= 192 && lane < 8
  {
    var data: nat := if Partner(lane) < past then Read64(body, at + 8 * Partner(lane)) else 0;
    var product: nat := if lane < past then Product(body, at, secret, key, lane) else 0;
    Plus(value, data + product)
  }

  lemma PartlyStep(value: Word, body: seq<Byte>, at: nat, secret: Secret, key: nat, lane: nat, past: nat)
    requires at + STRIPE <= |body| && key + STRIPE <= 192 && lane < 8 && past < 8
    ensures lane == past ==>
      Partly(value, body, at, secret, key, lane, past + 1)
      == Plus(Partly(value, body, at, secret, key, lane, past), Product(body, at, secret, key, lane))
    ensures Partner(lane) == past ==>
      Partly(value, body, at, secret, key, lane, past + 1)
      == Plus(Partly(value, body, at, secret, key, lane, past), Read64(body, at + 8 * past))
    ensures lane != past && Partner(lane) != past ==>
      Partly(value, body, at, secret, key, lane, past + 1) == Partly(value, body, at, secret, key, lane, past)
  {
    hide Read64, Product, Plus;
    var data: nat := if Partner(lane) < past then Read64(body, at + 8 * Partner(lane)) else 0;
    var product: nat := if lane < past then Product(body, at, secret, key, lane) else 0;
    PlusLonger(value, data + product, Product(body, at, secret, key, lane));
    PlusLonger(value, data + product, Read64(body, at + 8 * Partner(lane)));
  }

  lemma PlusLonger(x: nat, y: nat, z: nat)
    ensures Plus(Plus(x, y), z) == Plus(x, y + z)
  {
    PlusAgain(x + y, z);
  }

  method StripePortable(lanes: array<Word>, body: seq<Byte>, at: nat, secret: Secret, key: nat)
    requires lanes.Length == 8 && at + STRIPE <= |body| && key + STRIPE <= 192
    modifies lanes
    ensures lanes[..] == Striped(old(lanes[..]), body, at, secret, key)
  {
    hide Read64, Plus, HalfProduct, XorWord, Partly;
    ghost var was: Lanes := lanes[..];
    forall i | 0 <= i < 8 ensures lanes[i] == Partly(was[i], body, at, secret, key, i, 0) {
      PartlyNone(was[i], body, at, secret, key, i);
    }
    for lane := 0 to 8
      invariant forall i :: 0 <= i < 8 ==> lanes[i] == Partly(was[i], body, at, secret, key, i, lane)
    {
      forall i | 0 <= i < 8 {
        PartlyStep(was[i], body, at, secret, key, i, lane);
      }
      var data := Read64(body, at + 8 * lane);
      var keyed := XorWord(data, Read64(secret, key + 8 * lane));
      lanes[Partner(lane)] := Plus(lanes[Partner(lane)], data);
      lanes[lane] := Plus(lanes[lane], HalfProduct(keyed));
    }
    forall i | 0 <= i < 8 ensures lanes[i] == Striped(was, body, at, secret, key)[i] {
      PartlyAll(was[i], body, at, secret, key, i);
    }
  }

  lemma PartlyNone(value: Word, body: seq<Byte>, at: nat, secret: Secret, key: nat, lane: nat)
    requires at + STRIPE <= |body| && key + STRIPE <= 192 && lane < 8
    ensures Partly(value, body, at, secret, key, lane, 0) == value
  {
  }

  lemma PartlyAll(value: Word, body: seq<Byte>, at: nat, secret: Secret, key: nat, lane: nat)
    requires at + STRIPE <= |body| && key + STRIPE <= 192 && lane < 8
    ensures Partly(value, body, at, secret, key, lane, 8) == Plus(value, Added(body, at, secret, key, lane))
  {
    hide Read64, Product, Plus;
  }

  method ScramblePortable(lanes: array<Word>, secret: Secret, key: nat)
    requires lanes.Length == 8 && key + STRIPE <= 192
    modifies lanes
    ensures lanes[..] == Scrambled(old(lanes[..]), secret, key)
  {
    hide ScrambledLane, Read64, Times, XorWord;
    ghost var was: Lanes := lanes[..];
    for lane := 0 to 8
      invariant forall i :: 0 <= i < 8 ==>
        lanes[i] == if i < lane then ScrambledLane(was[i], Read64(secret, key + 8 * i)) else was[i]
    {
      ScrambledLaneIs(lanes[lane], Read64(secret, key + 8 * lane));
      var value := lanes[lane];
      value := XorWord(value, value / 0x8000_0000_0000);
      value := XorWord(value, Read64(secret, key + 8 * lane));
      lanes[lane] := Times(value, PRIME32_1);
    }
  }

  lemma ScrambledLaneIs(value: Word, key: Word)
    ensures ScrambledLane(value, key) == Times(XorWord(XorWord(value, value / 0x8000_0000_0000), key), PRIME32_1)
  {
  }

  method CombinePortable(lanes: array<Word>, odd: array<Word>)
    requires lanes.Length == 8 && odd.Length == 8 && lanes != odd
    modifies lanes, odd
    ensures lanes[..] == Joined(old(lanes[..]), old(odd[..])) && odd[..] == ZEROS
  {
    hide Plus;
    for lane := 0 to 8
      invariant forall i :: 0 <= i < 8 ==> lanes[i] == if i < lane then Plus(old(lanes[i]), old(odd[i])) else old(lanes[i])
      invariant forall i :: 0 <= i < 8 ==> odd[i] == if i < lane then 0 else old(odd[i])
    {
      lanes[lane] := Plus(lanes[lane], odd[lane]);
      odd[lane] := 0;
    }
  }

  // Two lanes at a time

  /** A 128-bit register, as two 64-bit lanes. */
  datatype Vector = Vector(low: Word, high: Word)

  /** One of a register's four 32-bit parts. */
  function Part(v: Vector, n: nat): (p: nat)
    requires n < 4
    ensures p < HALF
  {
    var lane := if n < 2 then v.low else v.high;
    if n % 2 == 0 then lane % HALF else lane / HALF
  }

  /** _mm_shuffle_epi32 by _MM_SHUFFLE(d, c, b, a) */
  function Shuffle(v: Vector, d: nat, c: nat, b: nat, a: nat): Vector
    requires a < 4 && b < 4 && c < 4 && d < 4
  {
    Vector(Part(v, a) + HALF * Part(v, b), Part(v, c) + HALF * Part(v, d))
  }

  /** _mm_mul_epu32: each lane's low halves. */
  function MulLow(v: Vector, w: Vector): Vector {
    Vector(TimesHalves(v.low % HALF, w.low % HALF), TimesHalves(v.high % HALF, w.high % HALF))
  }

  function AddVector(v: Vector, w: Vector): Vector {
    Vector(Plus(v.low, w.low), Plus(v.high, w.high))
  }

  function XorVector(v: Vector, w: Vector): Vector {
    Vector(XorWord(v.low, w.low), XorWord(v.high, w.high))
  }

  /** _mm_srli_epi64 by 47 */
  function ShiftRight47(v: Vector): Vector {
    Vector(v.low / 0x8000_0000_0000, v.high / 0x8000_0000_0000)
  }

  /** _mm_slli_epi64 by 32 */
  function ShiftLeft32(v: Vector): Vector {
    Vector(Times(v.low, HALF), Times(v.high, HALF))
  }

  function Load(bytes: seq<Byte>, at: nat): Vector
    requires at + 16 <= |bytes|
  {
    Vector(Read64(bytes, at), Read64(bytes, at + 8))
  }

  /** The shuffles: each lane's halves multiplied, and the two lanes swapped. */
  lemma Shuffled(v: Vector)
    ensures MulLow(v, Shuffle(v, 0, 3, 0, 1)) == Vector(HalfProduct(v.low), HalfProduct(v.high))
    ensures Shuffle(v, 1, 0, 3, 2) == Vector(v.high, v.low)
  {
    hide TimesHalves;
    HighHalves(v);
  }

  lemma StripedPart(was: Lanes, body: seq<Byte>, at: nat, secret: Secret, key: nat, part: nat)
    requires at + STRIPE <= |body| && key + STRIPE <= 192 && part < 4
    ensures var data := Load(body, at + 16 * part);
            var keyed := XorVector(data, Load(secret, key + 16 * part));
            var striped := Striped(was, body, at, secret, key);
            AddVector(Vector(was[2 * part], was[2 * part + 1]),
                      AddVector(MulLow(keyed, Shuffle(keyed, 0, 3, 0, 1)), Shuffle(data, 1, 0, 3, 2)))
            == Vector(striped[2 * part], striped[2 * part + 1])
  {
    hide Read64, Plus, HalfProduct, XorWord, MulLow, Shuffle;
    var data := Load(body, at + 16 * part);
    var keyed := XorVector(data, Load(secret, key + 16 * part));
    Shuffled(keyed);
    Shuffled(data);
    assert Product(body, at, secret, key, 2 * part) == HalfProduct(keyed.low);
    assert Product(body, at, secret, key, 2 * part + 1) == HalfProduct(keyed.high);
    PlusSwapped(was[2 * part], HalfProduct(keyed.low), data.high);
    PlusSwapped(was[2 * part + 1], HalfProduct(keyed.high), data.low);
  }

  lemma PlusSwapped(x: nat, y: nat, z: nat)
    ensures Plus(x, Plus(y, z)) == Plus(x, z + y)
  {
    PlusAgain(x, y + z);
  }

  method StripeSse2(lanes: array<Word>, body: seq<Byte>, at: nat, secret: Secret, key: nat)
    requires lanes.Length == 8 && at + STRIPE <= |body| && key + STRIPE <= 192
    modifies lanes
    ensures lanes[..] == Striped(old(lanes[..]), body, at, secret, key)
  {
    hide Striped, Load, AddVector, XorVector, MulLow, Shuffle;
    ghost var was: Lanes := lanes[..];
    ghost var striped := Striped(was, body, at, secret, key);
    for part := 0 to 4
      invariant forall i :: 0 <= i < 8 ==> lanes[i] == if i < 2 * part then striped[i] else was[i]
    {
      StripedPart(was, body, at, secret, key, part);
      var data := Load(body, at + 16 * part);
      var keyed := XorVector(data, Load(secret, key + 16 * part));
      var product := MulLow(keyed, Shuffle(keyed, 0, 3, 0, 1));
      var swapped := Shuffle(data, 1, 0, 3, 2);
      var sum := AddVector(Vector(lanes[2 * part], lanes[2 * part + 1]), AddVector(product, swapped));
      lanes[2 * part], lanes[2 * part + 1] := sum.low, sum.high;
    }
  }

  /** A multiplication by a half word, as two products of halves. */
  lemma TimesByHalves(value: Word, prime: nat)
    requires prime < HALF
    ensures Plus(TimesHalves(value % HALF, prime), Times(TimesHalves(value / HALF, prime), HALF)) == Times(value, prime)
  {
    var low, high := value % HALF, value / HALF;
    assert value * prime == low * prime + high * prime * HALF by {
      assert value == low + high * HALF;
    }
    PlusAgain(low * prime, high * prime * HALF);
  }

  /** _mm_set1_epi32 of the prime */
  const PRIMES := Vector(PRIME32_1 + HALF * PRIME32_1, PRIME32_1 + HALF * PRIME32_1)

  lemma HighHalves(v: Vector)
    ensures var moved := Shuffle(v, 0, 3, 0, 1);
            moved.low % HALF == v.low / HALF && moved.high % HALF == v.high / HALF
  {
  }

  lemma ScrambledPart(value: Vector, key: Vector)
    ensures var keyed := XorVector(XorVector(value, ShiftRight47(value)), key);
            AddVector(MulLow(keyed, PRIMES), ShiftLeft32(MulLow(Shuffle(keyed, 0, 3, 0, 1), PRIMES)))
            == Vector(ScrambledLane(value.low, key.low), ScrambledLane(value.high, key.high))
  {
    hide XorWord, Plus, Times, TimesHalves, Shuffle;
    var keyed := XorVector(XorVector(value, ShiftRight47(value)), key);
    HighHalves(keyed);
    TimesByHalves(keyed.low, PRIME32_1);
    TimesByHalves(keyed.high, PRIME32_1);
  }

  method ScrambleSse2(lanes: array<Word>, secret: Secret, key: nat)
    requires lanes.Length == 8 && key + STRIPE <= 192
    modifies lanes
    ensures lanes[..] == Scrambled(old(lanes[..]), secret, key)
  {
    hide ScrambledLane, Read64, AddVector, XorVector, MulLow, Shuffle, ShiftRight47, ShiftLeft32;
    ghost var was: Lanes := lanes[..];
    for part := 0 to 4
      invariant forall i :: 0 <= i < 8 ==> lanes[i] == if i < 2 * part then Scrambled(was, secret, key)[i] else was[i]
    {
      var value := Vector(lanes[2 * part], lanes[2 * part + 1]);
      ScrambledPart(value, Load(secret, key + 16 * part));
      var keyed := XorVector(XorVector(value, ShiftRight47(value)), Load(secret, key + 16 * part));
      var low := MulLow(keyed, PRIMES);
      var high := MulLow(Shuffle(keyed, 0, 3, 0, 1), PRIMES);
      var sum := AddVector(low, ShiftLeft32(high));
      lanes[2 * part], lanes[2 * part + 1] := sum.low, sum.high;
    }
  }

  method CombineSse2(lanes: array<Word>, odd: array<Word>)
    requires lanes.Length == 8 && odd.Length == 8 && lanes != odd
    modifies lanes, odd
    ensures lanes[..] == Joined(old(lanes[..]), old(odd[..])) && odd[..] == ZEROS
  {
    hide Plus;
    for part := 0 to 4
      invariant forall i :: 0 <= i < 8 ==> lanes[i] == if i < 2 * part then Plus(old(lanes[i]), old(odd[i])) else old(lanes[i])
      invariant forall i :: 0 <= i < 8 ==> odd[i] == if i < 2 * part then 0 else old(odd[i])
    {
      var sum := AddVector(Vector(lanes[2 * part], lanes[2 * part + 1]), Vector(odd[2 * part], odd[2 * part + 1]));
      lanes[2 * part], lanes[2 * part + 1] := sum.low, sum.high;
      odd[2 * part], odd[2 * part + 1] := 0, 0;
    }
  }

  // The 128-bit product of 32-bit products

  /** Two numbers by their halves: the product is upper * 2^64 + lower. */
  lemma ProductByHalves(left: Word, right: Word)
    ensures var lowLow, highLow := (left % HALF) * (right % HALF), (left / HALF) * (right % HALF);
            var lowHigh, highHigh := (left % HALF) * (right / HALF), (left / HALF) * (right / HALF);
            var cross := lowLow / HALF + highLow % HALF + lowHigh;
            var upper := highLow / HALF + cross / HALF + highHigh;
            cross < WORD && upper < WORD &&
            left * right == upper * WORD + (cross % HALF) * HALF + lowLow % HALF
  {
    var ll, lh, rl, rh := left % HALF, left / HALF, right % HALF, right / HALF;
    HalvesFit(ll, rl);
    HalvesFit(lh, rl);
    HalvesFit(ll, rh);
    HalvesFit(lh, rh);
    assert left * right == ll * rl + HALF * (lh * rl) + HALF * (ll * rh) + WORD * (lh * rh) by {
      assert left == ll + HALF * lh && right == rl + HALF * rh;
      Expanded(ll, lh, rl, rh);
    }
    CrossFits(ll * rl, lh * rl, ll * rh, lh * rh);
    Regrouped(ll * rl, lh * rl, ll * rh, lh * rh);
  }

  lemma Expanded(a: nat, b: nat, c: nat, d: nat)
    ensures (a + HALF * b) * (c + HALF * d) == a * c + HALF * (b * c) + HALF * (a * d) + WORD * (b * d)
  {
    var left := a + HALF * b;
    assert left * (c + HALF * d) == left * c + HALF * (left * d);
    assert left * c == a * c + HALF * (b * c);
    assert left * d == a * d + HALF * (b * d);
  }

  lemma Regrouped(a: nat, b: nat, c: nat, d: nat)
    ensures var cross := a / HALF + b % HALF + c;
            a + HALF * b + HALF * c + WORD * d
            == (b / HALF + cross / HALF + d) * WORD + (cross % HALF) * HALF + a % HALF
  {
  }

  lemma CrossFits(a: nat, b: nat, c: nat, d: nat)
    requires a <= (HALF - 1) * (HALF - 1) && b <= (HALF - 1) * (HALF - 1)
    requires c <= (HALF - 1) * (HALF - 1) && d <= (HALF - 1) * (HALF - 1)
    ensures var cross := a / HALF + b % HALF + c;
            cross < WORD && b / HALF + cross / HALF + d < WORD
  {
    assert a / HALF <= HALF - 2 && b / HALF <= HALF - 2;
  }

  lemma FoldByHalves(left: Word, right: Word)
    ensures var lowLow, highLow := TimesHalves(left % HALF, right % HALF), TimesHalves(left / HALF, right % HALF);
            var lowHigh, highHigh := TimesHalves(left % HALF, right / HALF), TimesHalves(left / HALF, right / HALF);
            var cross: nat := lowLow / HALF + highLow % HALF + lowHigh;
            var upper: nat := highLow / HALF + cross / HALF + highHigh;
            cross < WORD && upper < WORD && (cross % HALF) * HALF + lowLow % HALF < WORD &&
            Fold(left, right) == XorWord((cross % HALF) * HALF + lowLow % HALF, upper)
  {
    hide XorWord;
    ProductByHalves(left, right);
    var lowLow, highLow := TimesHalves(left % HALF, right % HALF), TimesHalves(left / HALF, right % HALF);
    var lowHigh, highHigh := TimesHalves(left % HALF, right / HALF), TimesHalves(left / HALF, right / HALF);
    var cross: nat := lowLow / HALF + highLow % HALF + lowHigh;
    var upper: nat := highLow / HALF + cross / HALF + highHigh;
    LowFits(cross, lowLow);
    DividedBy(left * right, upper, (cross % HALF) * HALF + lowLow % HALF);
  }

  lemma LowFits(cross: nat, low: nat)
    ensures (cross % HALF) * HALF + low % HALF < WORD
  {
  }

  lemma DividedBy(product: nat, upper: nat, lower: nat)
    requires product == upper * WORD + lower && lower < WORD
    ensures product / WORD == upper && product % WORD == lower
  {
  }

  /** (cross << 32) | low */
  lemma LowerIs(low: nat, cross: Word)
    requires low < HALF
    ensures Or(Times(cross, HALF), low) == (cross % HALF) * HALF + low
  {
    hide Or, ShiftLeft, Pow2;
    Pow2Half();
    DividedBy(cross * HALF, cross / HALF, (cross % HALF) * HALF);
    ShiftLeftIs(cross % HALF, 32);
    OrApart(cross % HALF, low, 32);
  }

  method MultiplyFold(left: Word, right: Word) returns (folded: Word)
    ensures folded == Fold(left, right)
  {
    hide XorWord, Or, TimesHalves, Fold, Times;
    FoldByHalves(left, right);
    var lowLow := TimesHalves(left % HALF, right % HALF);
    var highLow := TimesHalves(left / HALF, right % HALF);
    var lowHigh := TimesHalves(left % HALF, right / HALF);
    var highHigh := TimesHalves(left / HALF, right / HALF);
    var cross: Word := lowLow / HALF + highLow % HALF + lowHigh;
    var upper: Word := highLow / HALF + cross / HALF + highHigh;
    LowerIs(lowLow % HALF, cross);
    var lower := Or(Times(cross, HALF), lowLow % HALF);
    folded := XorWord(lower, upper);
  }

  // The whole

  datatype Path = Portable | Sse2

  method Stripe(path: Path, lanes: array<Word>, body: seq<Byte>, at: nat, secret: Secret, key: nat)
    requires lanes.Length == 8 && at + STRIPE <= |body| && key + STRIPE <= 192
    modifies lanes
    ensures lanes[..] == Striped(old(lanes[..]), body, at, secret, key)
  {
    match path
    case Portable => StripePortable(lanes, body, at, secret, key);
    case Sse2 => StripeSse2(lanes, body, at, secret, key);
  }

  method Combine(path: Path, lanes: array<Word>, odd: array<Word>)
    requires lanes.Length == 8 && odd.Length == 8 && lanes != odd
    modifies lanes, odd
    ensures lanes[..] == Joined(old(lanes[..]), old(odd[..])) && odd[..] == ZEROS
  {
    match path
    case Portable => CombinePortable(lanes, odd);
    case Sse2 => CombineSse2(lanes, odd);
  }

  method Scramble(path: Path, lanes: array<Word>, secret: Secret, key: nat)
    requires lanes.Length == 8 && key + STRIPE <= 192
    modifies lanes
    ensures lanes[..] == Scrambled(old(lanes[..]), secret, key)
  {
    match path
    case Portable => ScramblePortable(lanes, secret, key);
    case Sse2 => ScrambleSse2(lanes, secret, key);
  }

  /** Two stripes, the even one into the lanes and the odd one into their own sums. */
  method TwoStripes(path: Path, lanes: array<Word>, odd: array<Word>, body: seq<Byte>, start: nat, secret: Secret,
                    index: nat, ghost first: Lanes)
    requires lanes.Length == 8 && odd.Length == 8 && lanes != odd
    requires start + (index + 2) * STRIPE <= |body| && index + 2 <= STRIPES_PER_BLOCK
    requires Joined(lanes[..], odd[..]) == Chain(first, body, start, secret, index)
    modifies lanes, odd
    ensures Joined(lanes[..], odd[..]) == Chain(first, body, start, secret, index + 2)
  {
    hide Striped, Joined;
    ghost var even: Lanes, sums: Lanes := lanes[..], odd[..];
    Stripe(path, lanes, body, start + index * STRIPE, secret, index * 8);
    StripedJoined(even, sums, body, start + index * STRIPE, secret, index * 8);
    assert Joined(lanes[..], odd[..]) == Chain(first, body, start, secret, index + 1);
    StripedJoined(lanes[..], sums, body, start + (index + 1) * STRIPE, secret, (index + 1) * 8);
    Stripe(path, odd, body, start + (index + 1) * STRIPE, secret, (index + 1) * 8);
  }

  /** The stripes from a place on, by two chains joined at the end. */
  method Stripes(path: Path, lanes: array<Word>, odd: array<Word>, body: seq<Byte>, start: nat, secret: Secret,
                 stripes: nat)
    requires lanes.Length == 8 && odd.Length == 8 && lanes != odd && odd[..] == ZEROS
    requires start + stripes * STRIPE <= |body| && stripes <= STRIPES_PER_BLOCK
    modifies lanes, odd
    ensures lanes[..] == Chain(old(lanes[..]), body, start, secret, stripes) && odd[..] == ZEROS
  {
    hide Striped, Joined, Chain;
    ghost var first: Lanes := lanes[..];
    JoinedZeros(first);
    ChainNone(first, body, start, secret);
    var index: nat := 0;
    while index + 1 < stripes
      invariant index <= stripes
      invariant Joined(lanes[..], odd[..]) == Chain(first, body, start, secret, index)
    {
      TwoStripes(path, lanes, odd, body, start, secret, index, first);
      index := index + 2;
    }
    if index < stripes {
      StripedJoined(lanes[..], odd[..], body, start + index * STRIPE, secret, index * 8);
      ChainNext(first, body, start, secret, index);
      Stripe(path, lanes, body, start + index * STRIPE, secret, index * 8);
    }
    Combine(path, lanes, odd);
  }

  lemma ChainNone(lanes: Lanes, body: seq<Byte>, start: nat, secret: Secret)
    requires start <= |body|
    ensures Chain(lanes, body, start, secret, 0) == lanes
  {
  }

  lemma ChainNext(lanes: Lanes, body: seq<Byte>, start: nat, secret: Secret, n: nat)
    requires start + (n + 1) * STRIPE <= |body| && n < STRIPES_PER_BLOCK
    ensures Chain(lanes, body, start, secret, n + 1)
         == Striped(Chain(lanes, body, start, secret, n), body, start + n * STRIPE, secret, n * 8)
  {
  }

  method LongLanes(path: Path, lanes: array<Word>, odd: array<Word>, body: seq<Byte>, secret: Secret)
    requires |body| > 240
    requires lanes.Length == 8 && odd.Length == 8 && lanes != odd && lanes[..] == INITIAL && odd[..] == ZEROS
    modifies lanes, odd
    ensures lanes[..] == Mixed(body, secret)
  {
    hide Striped, Joined, Chain, Scrambled;
    var size := |body|;
    var blocks := (size - 1) / BLOCK;
    for block := 0 to blocks
      invariant lanes[..] == Blocks(body, secret, block) && odd[..] == ZEROS
    {
      Stripes(path, lanes, odd, body, block * BLOCK, secret, STRIPES_PER_BLOCK);
      Scramble(path, lanes, secret, 128);
    }
    var stripes := (size - 1 - blocks * BLOCK) / STRIPE;
    Stripes(path, lanes, odd, body, blocks * BLOCK, secret, stripes);
    Stripe(path, lanes, body, size - STRIPE, secret, 121);
  }

  method Merge(size: nat, lanes: array<Word>, secret: Secret) returns (result: Word)
    requires lanes.Length == 8
    ensures result == Merged(size, lanes[..], secret, 4)
  {
    hide Fold, XorWord, Plus, Times, Read64;
    result := Times(size, PRIME64_1);
    for pair := 0 to 4
      invariant result == Merged(size, lanes[..], secret, pair)
    {
      var fold := MultiplyFold(XorWord(lanes[2 * pair], Read64(secret, 11 + 16 * pair)),
                               XorWord(lanes[2 * pair + 1], Read64(secret, 19 + 16 * pair)));
      result := Plus(result, fold);
    }
  }

  method HashLong(path: Path, body: seq<Byte>, secret: Secret) returns (hash: Word)
    requires |body| > 240
    ensures hash == LongHash(body, secret)
  {
    hide Mixed, Merged, Avalanche;
    var lanes := new Word[8][PRIME32_3, PRIME64_1, PRIME64_2, PRIME64_3, PRIME64_4, PRIME32_2, PRIME64_5, PRIME32_1];
    var odd := new Word[8][0, 0, 0, 0, 0, 0, 0, 0];
    assert lanes[..] == INITIAL;
    LongLanes(path, lanes, odd, body, secret);
    var result := Merge(|body|, lanes, secret);
    hash := Avalanche(result);
  }
}
