/** The (first, count) pairs that carry the numbers of confirmed messages.

    A producer writes the numbers of an envelope's messages, and a consumer the
    numbers it confirms, as a flat list of 64-bit words: the first number of a
    run and how many follow on. Two readers decode such a list: the receiver of
    an envelope walks it message by message (`GiveNumbers`), and the producer
    looks up which of its numbers a CONFIRMATION names (`Names`).
 */
module NumberPairs {
  import opened Common

  /** The sum of two words, as 64 bits hold it. */
  function Plus(left: U64, right: U64): U64 {
    var sum: nat := left as nat + right as nat;
    if sum < WORD then sum else sum - WORD
  }

  function First(pairs: seq<U64>, p: nat): U64
    requires 2 * p + 1 < |pairs|
  {
    pairs[2 * p]
  }

  function Count(pairs: seq<U64>, p: nat): U64
    requires 2 * p + 1 < |pairs|
  {
    pairs[2 * p + 1]
  }

  /** One more number in a list of pairs. Whether it extends the last pair is decided in
      64-bit arithmetic. */
  function AddNumber(pairs: seq<U64>, number: U64): seq<U64> {
    var size := |pairs|;
    if size >= 2 && Plus(pairs[size - 2], pairs[size - 1]) == number then
      pairs[size - 1 := Plus(pairs[size - 1], 1)]
    else
      pairs + [number, 1]
  }

  /** What a writer makes of the numbers it is given, one after the other. */
  function Encode(numbers: seq<U64>): seq<U64> {
    if numbers == [] then
      []
    else
      AddNumber(Encode(numbers[..|numbers| - 1]), numbers[|numbers| - 1])
  }

  function Run(first: U64, count: U64): seq<U64> {
    seq(count, (j: nat) requires j < count => Plus(first, j))
  }

  /** The numbers a list of pairs stands for, in order; an odd word left at the
      end stands for none. */
  function Expand(pairs: seq<U64>): seq<U64> {
    if |pairs| < 2 then
      []
    else
      Run(pairs[0], pairs[1]) + Expand(pairs[2..])
  }

  lemma {:induction false} ExpandAppend(left: seq<U64>, right: seq<U64>)
    requires |left| % 2 == 0
    ensures Expand(left + right) == Expand(left) + Expand(right)
  {
    if left == [] {
      assert left + right == right;
    } else {
      assert (left + right)[2..] == left[2..] + right;
      ExpandAppend(left[2..], right);
    }
  }

  /** Pairs as a writer leaves them: whole, of at least one number each, none
      running past the last 64-bit word. */
  ghost predicate Written(pairs: seq<U64>) {
    && |pairs| % 2 == 0
    && forall p :: 0 <= 2 * p < |pairs| ==> WrittenPair(First(pairs, p), Count(pairs, p))
  }

  ghost predicate WrittenPair(first: U64, count: U64) {
    0 < first && 0 < count && first as nat + count as nat <= WORD
  }

  predicate NonZero(numbers: seq<U64>) {
    forall i :: 0 <= i < |numbers| ==> numbers[i] != 0
  }

  lemma ExpandOne(first: U64, count: U64)
    ensures Expand([first, count]) == Run(first, count)
  {
    assert Expand([first, count]) == Run(first, count) + Expand([]);
  }

  lemma ExpandGrown(pairs: seq<U64>)
    requires |pairs| >= 2 && |pairs| % 2 == 0
    requires WrittenPair(pairs[|pairs| - 2], pairs[|pairs| - 1])
    requires pairs[|pairs| - 2] as nat + pairs[|pairs| - 1] as nat < WORD
    ensures var first, count := pairs[|pairs| - 2], pairs[|pairs| - 1];
            Expand(pairs[|pairs| - 1 := count + 1]) == Expand(pairs) + [Plus(first, count)]
  {
    var front, first, count := pairs[..|pairs| - 2], pairs[|pairs| - 2], pairs[|pairs| - 1];
    assert pairs == front + [first, count];
    assert pairs[|pairs| - 1 := count + 1] == front + [first, count + 1];
    ExpandAppend(front, [first, count]);
    ExpandAppend(front, [first, count + 1]);
    ExpandOne(first, count);
    ExpandOne(first, count + 1);
    assert Run(first, count + 1) == Run(first, count) + [Plus(first, count)];
  }

  lemma WrittenGrown(pairs: seq<U64>)
    requires Written(pairs) && |pairs| >= 2
    ensures WrittenPair(pairs[|pairs| - 2], pairs[|pairs| - 1])
    ensures pairs[|pairs| - 2] as nat + pairs[|pairs| - 1] as nat < WORD ==>
      Written(pairs[|pairs| - 1 := pairs[|pairs| - 1] + 1])
  {
    var size := |pairs|;
    assert WrittenPair(First(pairs, size / 2 - 1), Count(pairs, size / 2 - 1));
    if pairs[size - 2] as nat + pairs[size - 1] as nat < WORD {
      var grown := pairs[size - 1 := pairs[size - 1] + 1];
      forall p | 0 <= 2 * p < size ensures WrittenPair(First(grown, p), Count(grown, p)) {
        assert WrittenPair(First(pairs, p), Count(pairs, p));
      }
    }
  }

  lemma WrittenMore(pairs: seq<U64>, number: U64)
    requires Written(pairs) && number != 0
    ensures Written(pairs + [number, 1])
  {
    var more := pairs + [number, 1];
    forall p | 0 <= 2 * p < |more| ensures WrittenPair(First(more, p), Count(more, p)) {
      if 2 * p < |pairs| {
        assert WrittenPair(First(pairs, p), Count(pairs, p));
      }
    }
  }

  lemma ExpandAdded(pairs: seq<U64>, number: U64)
    requires Written(pairs) && number != 0
    ensures Written(AddNumber(pairs, number))
    ensures Expand(AddNumber(pairs, number)) == Expand(pairs) + [number]
  {
    hide Expand, Run;
    var size := |pairs|;
    if size >= 2 && Plus(pairs[size - 2], pairs[size - 1]) == number {
      WrittenGrown(pairs);
      ExpandGrown(pairs);
    } else {
      WrittenMore(pairs, number);
      ExpandAppend(pairs, [number, 1]);
      ExpandOne(number, 1);
      RunOfOne(number);
    }
  }

  lemma RunOfOne(number: U64)
    ensures Run(number, 1) == [number]
  {
  }

  /** Packing the numbers and reading them back is the identity, for any
      numbers in any order: consecutive ones and those of a batch sent again. */
  lemma {:induction false} RoundTrip(numbers: seq<U64>)
    requires NonZero(numbers)
    ensures Written(Encode(numbers))
    ensures Expand(Encode(numbers)) == numbers
  {
    if numbers != [] {
      var front, last := numbers[..|numbers| - 1], numbers[|numbers| - 1];
      RoundTrip(front);
      ExpandAdded(Encode(front), last);
      assert numbers == front + [last];
    }
  }

  /** The numbers left from a place of a pair on. */
  ghost function Left(pairs: seq<U64>, pair: nat, past: U64): seq<U64>
    requires pair + 1 < |pairs| ==> past <= pairs[pair + 1]
  {
    if pair + 1 < |pairs| then Run(pairs[pair], pairs[pair + 1])[past..] + Expand(pairs[pair + 2..]) else []
  }

  lemma LeftFirst(pairs: seq<U64>, pair: nat)
    requires pair <= |pairs|
    ensures Left(pairs, pair, 0) == Expand(pairs[pair..])
  {
    if pair + 1 < |pairs| {
      assert pairs[pair..][2..] == pairs[pair + 2..];
    }
  }

  /** A pair all given: the next one. */
  lemma LeftNext(pairs: seq<U64>, pair: nat, past: U64)
    requires pair + 1 < |pairs| && past == pairs[pair + 1]
    ensures Left(pairs, pair, past) == Left(pairs, pair + 2, 0)
  {
    hide Expand;
    LeftFirst(pairs, pair + 2);
  }

  lemma LeftGiven(pairs: seq<U64>, pair: nat, past: U64)
    requires pair + 1 < |pairs| && past < pairs[pair + 1]
    ensures Left(pairs, pair, past) == [Plus(pairs[pair], past)] + Left(pairs, pair, past + 1)
  {
    hide Expand;
  }

  /** The receiver's walk: message i is given the i-th number the pairs stand for, or 0
      past the end. The walk is in pair `pair`, after `past` of its numbers. */
  method GiveNumbers(pairs: seq<U64>, count: nat) returns (given: seq<U64>)
    ensures |given| == count
    ensures forall i :: 0 <= i < count ==>
                          given[i] == if i < |Expand(pairs)| then Expand(pairs)[i] else 0
  {
    hide Expand, Left;
    given := [];
    var pair: nat, past: U64 := 0, 0;
    ghost var all := Expand(pairs);
    LeftFirst(pairs, 0);
    assert pairs[0..] == pairs && all[0..] == all;
    while |given| < count
      invariant |given| <= count && pair <= |pairs|
      invariant pair + 1 < |pairs| ==> past <= pairs[pair + 1]
      invariant Left(pairs, pair, past) == all[if |given| < |all| then |given| else |all|..]
      invariant forall i :: 0 <= i < |given| ==> given[i] == if i < |all| then all[i] else 0
    {
      while pair + 1 < |pairs| && past >= pairs[pair + 1]
        invariant pair <= |pairs|
        invariant pair + 1 < |pairs| ==> past <= pairs[pair + 1]
        invariant Left(pairs, pair, past) == all[if |given| < |all| then |given| else |all|..]
        decreases |pairs| - pair
      {
        LeftNext(pairs, pair, past);
        pair := pair + 2;
        past := 0;
      }
      var number: U64 := 0;
      if pair + 1 < |pairs| {
        LeftGiven(pairs, pair, past);
        number := Plus(pairs[pair], past);
        past := past + 1;
      } else {
        NoneLeft(pairs, pair, past);
      }
      given := given + [number];
    }
  }

  lemma NoneLeft(pairs: seq<U64>, pair: nat, past: U64)
    requires pair + 1 >= |pairs|
    ensures Left(pairs, pair, past) == []
  {
  }

  /** The numbers a CONFIRMATION's list names to the producer that reads it: a
      pair whose end, a 64-bit word, is not past its first names nothing. */
  ghost predicate PairNames(first: U64, count: U64, number: nat) {
    first <= number < Plus(first, count)
  }

  ghost predicate Names(pairs: seq<U64>, number: nat) {
    exists p :: 0 <= 2 * p && 2 * p + 1 < |pairs| && PairNames(First(pairs, p), Count(pairs, p), number)
  }

  lemma NamesFirst(pairs: seq<U64>, number: nat)
    requires |pairs| >= 2
    ensures Names(pairs, number) <==> PairNames(pairs[0], pairs[1], number) || Names(pairs[2..], number)
  {
    var rest := pairs[2..];
    if Names(pairs, number) {
      var p :| 0 <= 2 * p && 2 * p + 1 < |pairs| && PairNames(First(pairs, p), Count(pairs, p), number);
      if p > 0 {
        assert First(rest, p - 1) == First(pairs, p);
        assert Count(rest, p - 1) == Count(pairs, p);
      }
    }
    if PairNames(pairs[0], pairs[1], number) {
      assert PairNames(First(pairs, 0), Count(pairs, 0), number);
    }
    if Names(rest, number) {
      var p :| 0 <= 2 * p && 2 * p + 1 < |rest| && PairNames(First(rest, p), Count(rest, p), number);
      assert First(rest, p) == First(pairs, p + 1);
      assert Count(rest, p) == Count(pairs, p + 1);
    }
  }

  lemma RunNames(first: U64, count: U64, number: U64)
    requires WrittenPair(first, count)
    requires first as nat + count as nat < WORD
    ensures PairNames(first, count, number) <==> number in Run(first, count)
  {
    if PairNames(first, count, number) {
      assert Run(first, count)[number - first] == number;
    }
  }

  /** What the two readers make of pairs that end before the last 64-bit word
      agrees: the producer hears exactly the numbers the list stands for. */
  lemma {:induction false} NamesAreExpanded(pairs: seq<U64>, number: U64)
    requires Written(pairs)
    requires forall p :: 0 <= 2 * p < |pairs| ==> First(pairs, p) as nat + Count(pairs, p) as nat < WORD
    ensures Names(pairs, number) <==> number in Expand(pairs)
  {
    if |pairs| >= 2 {
      var rest := pairs[2..];
      assert forall p :: 0 <= 2 * p < |rest| ==> First(rest, p) == First(pairs, p + 1) && Count(rest, p) == Count(pairs, p + 1);
      NamesAreExpanded(rest, number);
      NamesFirst(pairs, number);
      assert First(pairs, 0) == pairs[0] && Count(pairs, 0) == pairs[1];
      RunNames(pairs[0], pairs[1], number);
    }
  }

  /** A pair that ends at the last 64-bit word is one that stands for it. */
  lemma {:induction false} PairsEndEarly(pairs: seq<U64>)
    requires Written(pairs)
    requires WORD - 1 !in Expand(pairs)
    ensures forall p :: 0 <= 2 * p < |pairs| ==> First(pairs, p) as nat + Count(pairs, p) as nat < WORD
  {
    if |pairs| >= 2 {
      var rest := pairs[2..];
      assert forall p :: 0 <= 2 * p < |rest| ==> First(rest, p) == First(pairs, p + 1) && Count(rest, p) == Count(pairs, p + 1);
      assert Expand(pairs) == Run(pairs[0], pairs[1]) + Expand(rest);
      PairsEndEarly(rest);
      assert WrittenPair(First(pairs, 0), Count(pairs, 0));
      var run := Run(pairs[0], pairs[1]);
      assert run[|run| - 1] in Expand(pairs);
      forall p | 0 <= 2 * p < |pairs|
        ensures First(pairs, p) as nat + Count(pairs, p) as nat < WORD
      {
        if p > 0 {
          assert First(rest, p - 1) == First(pairs, p);
        }
      }
    }
  }

  /** A CONFIRMATION of the numbers a consumer gathered names exactly those to
      their producer if and only if the last 64-bit word is not among them:
      a run that reaches it has an end of 0, and is passed over whole. */
  lemma ConfirmationNames(numbers: seq<U64>)
    requires NonZero(numbers)
    ensures (forall n: U64 :: Names(Encode(numbers), n) <==> n in numbers) <==> WORD - 1 !in numbers
  {
    RoundTrip(numbers);
    if WORD - 1 !in numbers {
      PairsEndEarly(Encode(numbers));
      forall n: U64
        ensures Names(Encode(numbers), n) <==> n in numbers
      {
        NamesAreExpanded(Encode(numbers), n);
      }
    } else {
      assert !Names(Encode(numbers), WORD - 1);
    }
  }

  /** The family that fails, by its smallest member. */
  lemma LastWordNamesNothing(n: nat)
    ensures !Names(Encode([WORD - 2, WORD - 1]), n)
  {
    assert Encode([WORD - 2]) == AddNumber(Encode([]), WORD - 2) by {
      assert [WORD - 2][..0] == [];
    }
    assert [WORD - 2, WORD - 1][..1] == [WORD - 2];
    assert Encode([WORD - 2, WORD - 1]) == [WORD - 2, 2];
    assert Plus(WORD - 2, 2) == 0;
  }
}
