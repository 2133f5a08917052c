/** The machine's operations on unsigned words, as operations on the numbers they
    stand for: or, and-not, exclusive or and the left shift, by binary digits. */
module Words {
  import opened Common

  const BITS: nat := 64

  function Pow2(n: nat): (p: nat)
    ensures p > 0
  {
    if n == 0 then 1 else 2 * Pow2(n - 1)
  }

  /** (word >> j) & 1 */
  predicate Bit(word: nat, j: nat) {
    if j == 0 then word % 2 == 1 else Bit(word / 2, j - 1)
  }

  /** left | right */
  function Or(left: nat, right: nat): nat
    decreases left + right
  {
    if left == 0 && right == 0 then 0
    else 2 * Or(left / 2, right / 2) + if left % 2 == 1 || right % 2 == 1 then 1 else 0
  }

  /** left & ~right */
  function AndNot(left: nat, right: nat): nat {
    if left == 0 then 0
    else 2 * AndNot(left / 2, right / 2) + if left % 2 == 1 && right % 2 == 0 then 1 else 0
  }

  /** word << n, where it keeps within 64 bits. */
  function ShiftLeft(word: nat, n: nat): nat {
    if n == 0 then word else 2 * ShiftLeft(word, n - 1)
  }

  lemma {:induction false} BitOfZero(j: nat)
    ensures !Bit(0, j)
  {
    if j > 0 { BitOfZero(j - 1); }
  }

  lemma {:induction false} BitOfOr(left: nat, right: nat, j: nat)
    ensures Bit(Or(left, right), j) <==> Bit(left, j) || Bit(right, j)
  {
    if left == 0 && right == 0 {
      BitOfZero(j);
    } else if j > 0 {
      BitOfOr(left / 2, right / 2, j - 1);
    }
  }

  lemma {:induction false} BitOfAndNot(left: nat, right: nat, j: nat)
    ensures Bit(AndNot(left, right), j) <==> Bit(left, j) && !Bit(right, j)
  {
    if left == 0 {
      BitOfZero(j);
    } else if j > 0 {
      BitOfAndNot(left / 2, right / 2, j - 1);
    }
  }

  lemma {:induction false} Pow2Monotone(m: nat, n: nat)
    requires m <= n
    ensures Pow2(m) <= Pow2(n)
  {
    if m < n {
      Pow2Monotone(m, n - 1);
    }
  }

  lemma Pow2Byte(n: nat)
    ensures Pow2(n + 8) == 256 * Pow2(n)
  {
    assert Pow2(n + 4) == 2 * Pow2(n + 3) == 4 * Pow2(n + 2) == 16 * Pow2(n);
    assert Pow2(n + 8) == 2 * Pow2(n + 7) == 4 * Pow2(n + 6) == 16 * Pow2(n + 4);
  }

  lemma Pow2Zero()
    ensures Pow2(0) == 1
  {
  }

  lemma Pow2Half()
    ensures Pow2(32) == 0x1_0000_0000
  {
    hide Pow2;
    Pow2Zero();
    Pow2Byte(0);
    Pow2Byte(8);
    Pow2Byte(16);
    Pow2Byte(24);
  }

  lemma Pow2Word()
    ensures Pow2(BITS) == WORD
  {
    hide Pow2;
    Pow2Half();
    Pow2Byte(32);
    Pow2Byte(40);
    Pow2Byte(48);
    Pow2Byte(56);
  }

  lemma {:induction false} OrFits(left: nat, right: nat, n: nat)
    requires left < Pow2(n) && right < Pow2(n)
    ensures Or(left, right) < Pow2(n)
  {
    if n > 0 {
      OrFits(left / 2, right / 2, n - 1);
    }
  }

  /** left ^ right */
  function Xor(x: nat, y: nat): nat
    decreases x + y
  {
    if x == 0 && y == 0 then 0 else 2 * Xor(x / 2, y / 2) + (x + y) % 2
  }

  lemma {:induction false} XorZero(x: nat)
    ensures Xor(x, 0) == x && Xor(0, x) == x
  {
    if x > 0 {
      XorZero(x / 2);
    }
  }

  lemma {:induction false} XorSwap(x: nat, y: nat)
    ensures Xor(x, y) == Xor(y, x)
    decreases x + y
  {
    if x > 0 || y > 0 {
      XorSwap(x / 2, y / 2);
    }
  }

  lemma {:induction false} XorSelf(x: nat)
    ensures Xor(x, x) == 0
  {
    if x > 0 {
      XorSelf(x / 2);
    }
  }

  lemma {:induction false} XorHalves(x: nat, y: nat)
    ensures Xor(x, y) / 2 == Xor(x / 2, y / 2)
    ensures Xor(x, y) % 2 == (x + y) % 2
  {
    Doubled(Xor(x / 2, y / 2), (x + y) % 2);
  }

  lemma Parity(x: nat, y: nat, z: nat)
    requires x % 2 == y % 2
    ensures (x + z) % 2 == (y + z) % 2
  {
  }

  lemma XorParity(x: nat, y: nat, z: nat)
    ensures Xor(Xor(x, y), z) % 2 == (x + y + z) % 2
  {
    hide Xor;
    XorHalves(x, y);
    XorHalves(Xor(x, y), z);
    Parity(Xor(x, y), x + y, z);
  }

  lemma {:induction false} XorGroup(x: nat, y: nat, z: nat)
    ensures Xor(Xor(x, y), z) == Xor(x, Xor(y, z))
    decreases x + y + z
  {
    hide Xor;
    if x + y + z > 0 {
      XorHalves(x, y);
      XorHalves(y, z);
      XorHalves(Xor(x, y), z);
      XorHalves(x, Xor(y, z));
      XorGroup(x / 2, y / 2, z / 2);
      XorParity(x, y, z);
      XorParity(y, z, x);
      XorSwap(Xor(y, z), x);
    } else {
      XorZero(0);
    }
  }

  /** (a ^ b) ^ (c ^ d) == (a ^ c) ^ (b ^ d) */
  lemma XorPairs(a: nat, b: nat, c: nat, d: nat)
    ensures Xor(Xor(a, b), Xor(c, d)) == Xor(Xor(a, c), Xor(b, d))
  {
    hide Xor;
    XorGroup(Xor(a, b), c, d);
    XorGroup(a, b, c);
    XorSwap(b, c);
    XorGroup(a, c, b);
    XorGroup(Xor(a, c), b, d);
  }

  /** Numbers without a binary digit in common: their exclusive or is their sum. */
  lemma {:induction false} XorApart(low: nat, high: nat, n: nat)
    requires low < Pow2(n)
    ensures Xor(low, ShiftLeft(high, n)) == low + ShiftLeft(high, n)
  {
    hide Xor;
    if n == 0 {
      XorZero(high);
    } else {
      XorDouble(low / 2, low % 2, ShiftLeft(high, n - 1));
      XorApart(low / 2, high, n - 1);
    }
  }

  /** The last digits apart from the rest. */
  lemma XorDouble(x: nat, digit: nat, y: nat)
    requires digit < 2
    ensures Xor(2 * x + digit, 2 * y) == 2 * Xor(x, y) + digit
  {
    Doubled(x, digit);
    Doubled(y, 0);
    Doubled(x + y, digit);
  }

  lemma Doubled(x: nat, digit: nat)
    requires digit < 2
    ensures (2 * x + digit) / 2 == x && (2 * x + digit) % 2 == digit
  {
  }

  /** word >> n */
  function ShiftRight(word: nat, n: nat): nat {
    if n == 0 then word else ShiftRight(word / 2, n - 1)
  }

  lemma {:induction false} XorShifted(x: nat, y: nat, n: nat)
    ensures ShiftRight(Xor(x, y), n) == Xor(ShiftRight(x, n), ShiftRight(y, n))
  {
    hide Xor;
    if n > 0 {
      XorHalves(x, y);
      XorShifted(x / 2, y / 2, n - 1);
    }
  }

  lemma {:induction false} ShiftRightOn(word: nat, m: nat, n: nat)
    ensures ShiftRight(ShiftRight(word, m), n) == ShiftRight(word, m + n)
  {
    if m > 0 {
      ShiftRightOn(word / 2, m - 1, n);
    }
  }

  lemma {:induction false} ShiftedOut(word: nat, n: nat)
    requires word < Pow2(n)
    ensures ShiftRight(word, n) == 0
  {
    if n > 0 {
      ShiftedOut(word / 2, n - 1);
    }
  }

  lemma ShiftRightOne(word: nat)
    ensures ShiftRight(word, 1) == word / 2 && ShiftRight(word, 2) == word / 4
  {
  }

  lemma ShiftRightFour(word: nat)
    ensures ShiftRight(word, 4) == word / 16
  {
    hide ShiftRight;
    ShiftRightOn(word, 2, 2);
    ShiftRightOne(word);
    ShiftRightOne(word / 4);
  }

  lemma ShiftRightByte(word: nat)
    ensures ShiftRight(word, 8) == word / 256
  {
    hide ShiftRight;
    ShiftRightOn(word, 4, 4);
    ShiftRightFour(word);
    ShiftRightFour(word / 16);
  }

  lemma {:induction false} XorFits(x: nat, y: nat, n: nat)
    requires x < Pow2(n) && y < Pow2(n)
    ensures Xor(x, y) < Pow2(n)
  {
    if n > 0 {
      XorFits(x / 2, y / 2, n - 1);
    }
  }

  lemma {:induction false} OrApart(high: nat, low: nat, n: nat)
    requires low < Pow2(n)
    ensures Or(ShiftLeft(high, n), low) == ShiftLeft(high, n) + low
  {
    if n == 0 {
      OrZero(high);
    } else {
      OrApart(high, low / 2, n - 1);
    }
  }

  lemma {:induction false} OrZero(x: nat)
    ensures Or(x, 0) == x
  {
    if x > 0 {
      OrZero(x / 2);
    }
  }

  lemma {:induction false} ShiftLeftIs(x: nat, n: nat)
    ensures ShiftLeft(x, n) == x * Pow2(n)
  {
    if n > 0 {
      ShiftLeftIs(x, n - 1);
      assert x * Pow2(n) == 2 * (x * Pow2(n - 1));
    }
  }

  function And(x: nat, y: nat): nat {
    if x == 0 then 0 else 2 * And(x / 2, y / 2) + if x % 2 == 1 && y % 2 == 1 then 1 else 0
  }

  /** A mask of ones leaves a number's low digits. */
  lemma {:induction false} AndMask(high: nat, low: nat, n: nat)
    requires low < Pow2(n)
    ensures And(high * Pow2(n) + low, Pow2(n) - 1) == low
  {
    hide And;
    if n == 0 {
      AndZero(high * Pow2(n) + low);
    } else {
      var part := Pow2(n - 1);
      TwiceTimes(part, high);
      AndDouble(high * part + low / 2, low % 2, part - 1);
      AndMask(high, low / 2, n - 1);
    }
  }

  lemma AndDouble(x: nat, digit: nat, y: nat)
    requires digit < 2
    ensures And(2 * x + digit, 2 * y + 1) == 2 * And(x, y) + digit
  {
    Doubled(x, digit);
    Doubled(y, 1);
  }

  lemma TwiceTimes(x: nat, y: nat)
    ensures (2 * x) * y == y * (2 * x) == 2 * (x * y) == 2 * (y * x)
  {
  }

  lemma {:induction false} AndZero(x: nat)
    ensures And(x, 0) == 0
  {
    if x > 0 {
      AndZero(x / 2);
    }
  }

  lemma {:induction false} Pow2Sum(m: nat, n: nat)
    ensures Pow2(m + n) == Pow2(m) * Pow2(n)
  {
    if m > 0 {
      Pow2Sum(m - 1, n);
      TwiceTimes(Pow2(m - 1), Pow2(n));
    }
  }
}
