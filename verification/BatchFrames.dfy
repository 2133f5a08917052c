/** How a batch becomes frames. Each envelope holds a first part of the messages left,
    within a bound on its serialized size; the last ones are cut from it otherwise,
    and a message cut has its body again. */
module BatchFrames {
  import opened Common
  import opened NumberPairs

  type Body = seq<nat>

  /** A message of a batch; its body is moved out of it, or copied while its frame
      has another holder. */
  datatype Record = Record(id: nat, body: Body, shared: bool)

  /** What becomes of messages of a batch: an envelope of them, a message alone, or,
      where no envelope could be made to number them, nothing. */
  datatype Handed =
    | Envelope(ids: seq<nat>, bodies: seq<Body>, pairs: seq<U64>)
    | Alone(id: nat, body: Body)
    | GivenUp(ids: seq<nat>)

  // Sizes on the wire

  /** The bytes of a number as a varint. */
  function VarintSize(n: nat): nat {
    if n < 128 then 1 else 1 + VarintSize(n / 128)
  }

  /** What `n` digits of seven bits can hold. */
  function Sevens(n: nat): nat {
    if n == 0 then 1 else 128 * Sevens(n - 1)
  }

  /** As many bytes as the number has digits of seven bits. */
  lemma {:induction false} VarintIs(n: nat)
    ensures n < Sevens(VarintSize(n)) && (n >= 128 ==> Sevens(VarintSize(n) - 1) <= n)
  {
    if n >= 128 {
      VarintIs(n / 128);
    }
  }

  /** A field of bytes: its tag, its length and the bytes. */
  function FieldSize(n: nat): nat {
    1 + VarintSize(n) + n
  }

  /** The messages of a batch, a field each. */
  function BatchSize(bodies: seq<Body>): nat {
    if bodies == [] then 0 else BatchSize(bodies[..|bodies| - 1]) + FieldSize(|bodies[|bodies| - 1]|)
  }

  function PackedSize(words: seq<U64>): nat {
    if words == [] then 0 else PackedSize(words[..|words| - 1]) + VarintSize(words[|words| - 1])
  }

  /** An envelope: its id, sender, type and key, its batch, and its numbers, no
      field at all where there are none. */
  function EnvelopeSize(header: nat, bodies: seq<Body>, pairs: seq<U64>): nat {
    header + FieldSize(BatchSize(bodies)) + if pairs == [] then 0 else FieldSize(PackedSize(pairs))
  }

  lemma {:induction false} VarintGrows(m: nat, n: nat)
    requires m <= n
    ensures VarintSize(m) <= VarintSize(n)
  {
    if m >= 128 {
      VarintGrows(m / 128, n / 128);
    }
  }

  lemma FieldGrows(m: nat, n: nat, less: nat)
    requires m + less <= n
    ensures FieldSize(m) + less <= FieldSize(n)
  {
    VarintGrows(m, n);
  }

  lemma PackedAppend(words: seq<U64>, word: U64)
    ensures PackedSize(words + [word]) == PackedSize(words) + VarintSize(word)
  {
    assert (words + [word])[..|words|] == words;
  }

  /** One number more makes the pairs no smaller. */
  lemma AddedGrows(pairs: seq<U64>, number: U64)
    requires Written(pairs) && number != 0
    ensures PackedSize(pairs) <= PackedSize(AddNumber(pairs, number)) && AddNumber(pairs, number) != []
  {
    hide VarintSize, PackedSize;
    var size := |pairs|;
    if size >= 2 && NumberPairs.Plus(pairs[size - 2], pairs[size - 1]) == number {
      assert WrittenPair(First(pairs, size / 2 - 1), Count(pairs, size / 2 - 1));
      GrownPair(pairs[..size - 1], pairs[size - 1]);
      assert pairs == pairs[..size - 1] + [pairs[size - 1]];
      assert AddNumber(pairs, number) == pairs[..size - 1] + [NumberPairs.Plus(pairs[size - 1], 1)];
    } else {
      PackedAppend(pairs, number);
      PackedAppend(pairs + [number], 1);
      assert pairs + [number, 1] == pairs + [number] + [1];
    }
  }

  lemma GrownPair(front: seq<U64>, count: U64)
    requires count as nat + 1 < WORD
    ensures PackedSize(front + [count]) <= PackedSize(front + [NumberPairs.Plus(count, 1)])
  {
    hide VarintSize, PackedSize;
    PackedAppend(front, count);
    PackedAppend(front, NumberPairs.Plus(count, 1));
    VarintGrows(count, count + 1);
  }

  lemma PackedGrows(numbers: seq<U64>)
    requires NonZero(numbers) && numbers != []
    ensures var before := Encode(numbers[..|numbers| - 1]);
            PackedSize(before) <= PackedSize(Encode(numbers)) && Encode(numbers) != []
  {
    hide PackedSize, Expand, AddNumber, Written;
    RoundTrip(numbers[..|numbers| - 1]);
    AddedGrows(Encode(numbers[..|numbers| - 1]), numbers[|numbers| - 1]);
  }

  lemma {:induction false} PackedPrefix(numbers: seq<U64>, n: nat)
    requires NonZero(numbers) && n <= |numbers|
    ensures PackedSize(Encode(numbers[..n])) <= PackedSize(Encode(numbers))
    ensures n > 0 ==> Encode(numbers[..n]) != [] && Encode(numbers) != []
  {
    if n == |numbers| {
      assert numbers[..n] == numbers;
      if n > 0 { PackedGrows(numbers); }
    } else {
      var shorter := numbers[..|numbers| - 1];
      PackedPrefix(shorter, n);
      assert shorter[..n] == numbers[..n];
      PackedGrows(numbers);
    }
  }

  /** The bytes of some messages' bodies alone. */
  function BodyBytes(records: seq<Record>): nat {
    if records == [] then 0 else |records[0].body| + BodyBytes(records[1..])
  }

  function Bodies(records: seq<Record>): seq<Body> {
    seq(|records|, i requires 0 <= i < |records| => records[i].body)
  }

  function Ids(records: seq<Record>): seq<nat> {
    seq(|records|, i requires 0 <= i < |records| => records[i].id)
  }

  /** Each body cut takes at least its own bytes off the batch. */
  lemma {:induction false} BatchShrinks(records: seq<Record>, n: nat)
    requires n <= |records|
    ensures BatchSize(Bodies(records[..n])) + BodyBytes(records[n..]) <= BatchSize(Bodies(records))
    decreases |records| - n
  {
    hide VarintSize;
    if n == |records| {
      assert records[..n] == records;
    } else {
      BatchShrinks(records, n + 1);
      assert Bodies(records[..n + 1])[..n] == Bodies(records[..n]);
      assert records[n..][1..] == records[n + 1..];
    }
  }

  function SizeOf(header: nat, records: seq<Record>, numbers: seq<U64>): nat {
    EnvelopeSize(header, Bodies(records), Encode(numbers))
  }

  /** So an envelope shrinks by at least the bodies cut. */
  lemma EnvelopeShrinks(header: nat, records: seq<Record>, numbers: seq<U64>, n: nat)
    requires 0 < n <= |records| && NonZero(numbers) && (numbers == [] || |numbers| == |records|)
    ensures SizeOf(header, records[..n], if numbers == [] then [] else numbers[..n]) + BodyBytes(records[n..])
         <= SizeOf(header, records, numbers)
  {
    hide VarintSize, FieldSize, BatchSize, PackedSize;
    BatchShrinks(records, n);
    FieldGrows(BatchSize(Bodies(records[..n])), BatchSize(Bodies(records)), BodyBytes(records[n..]));
    if numbers != [] {
      PackedPrefix(numbers, n);
      FieldGrows(PackedSize(Encode(numbers[..n])), PackedSize(Encode(numbers)), 0);
    }
  }

  /** A batch that does not fit and cannot be cut to two: the bodies past the
      first two are less than what is over. */
  ghost predicate CutToOne(header: nat, maxBytes: nat, rest: seq<Record>) {
    |rest| >= 2 && SizeOf(header, rest, []) > maxBytes && BodyBytes(rest[2..]) < SizeOf(header, rest, []) - maxBytes
  }

  /** The numbers an envelope carries. */
  function Carried(confirm: bool, numbers: seq<U64>): seq<U64> {
    if confirm then numbers else []
  }

  /** `n` of the messages left go into an envelope: all where they fit, else as many as
      leave it, by the bodies after them, with no more than is over taken off, or one. */
  ghost predicate CutAsNeeded(header: nat, maxBytes: nat, rest: seq<Record>, numbers: seq<U64>, n: nat) {
    var size := SizeOf(header, rest, numbers);
    && 0 < n <= |rest|
    && (size <= maxBytes ==> n == |rest|)
    && (size > maxBytes ==>
          && (n == 1 || BodyBytes(rest[n..]) >= size - maxBytes)
          && (n < |rest| ==> BodyBytes(rest[n + 1..]) < size - maxBytes))
  }

  // What is handed over

  ghost predicate EnvelopeOk(header: nat, maxBytes: nat, confirm: bool, out: Handed, rest: seq<Record>, numbers: seq<U64>)
    requires out.Envelope? && |numbers| == |rest|
  {
    var n := |out.ids|;
    && 0 < n <= |rest| && (confirm || n > 1)
    && out.ids == Ids(rest[..n]) && out.bodies == Bodies(rest[..n])
    && out.pairs == (if confirm then Encode(numbers[..n]) else [])
    && (n > 1 ==> EnvelopeSize(header, out.bodies, out.pairs) <= maxBytes)
    && CutAsNeeded(header, maxBytes, rest, Carried(confirm, numbers), n)
    && (!confirm ==> !CutToOne(header, maxBytes, rest))
  }

  /** What is handed over next of the messages left: an envelope of the first of
      them, within its bound unless of one; the first alone, without its body where
      the cut left it by itself; or the first ones given up on. */
  ghost predicate HandedOk(header: nat, maxBytes: nat, confirm: bool, out: Handed, rest: seq<Record>, numbers: seq<U64>)
    requires |numbers| == |rest|
  {
    match out
    case Envelope(_, _, _) => EnvelopeOk(header, maxBytes, confirm, out, rest, numbers)
    case Alone(id, body) =>
      && !confirm && rest != [] && id == rest[0].id
      && body == if CutToOne(header, maxBytes, rest) && !rest[0].shared then [] else rest[0].body
    case GivenUp(ids) =>
      && confirm && 0 < |ids| <= |rest| && ids == Ids(rest[..|ids|])
      && CutAsNeeded(header, maxBytes, rest, numbers, |ids|)
  }

  function Taken(record: Record): Record {
    if record.shared then record else record.(body := [])
  }

  /** A body given back: to a frame left empty, or as the message's bytes. */
  function GivenBack(record: Record, body: Body): Record {
    if record.shared && record.body != [] then record else record.(body := body)
  }

  lemma TakenGivenBack(record: Record)
    ensures GivenBack(Taken(record), record.body) == record
  {
  }

  /** The messages of a batch with some of their bodies in the envelope. */
  ghost predicate Inside(rest: seq<Record>, now: seq<Record>, end: nat) {
    && |now| == |rest| && end <= |rest|
    && (forall i :: 0 <= i < end ==> now[i] == Taken(rest[i]))
    && (forall i :: end <= i < |rest| ==> now[i] == rest[i])
  }

  method TakeBodies(rest: seq<Record>) returns (now: seq<Record>, inside: seq<Body>)
    ensures Inside(rest, now, |rest|) && inside == Bodies(rest)
  {
    now, inside := rest, [];
    for index := 0 to |rest|
      invariant |now| == |rest| && |inside| == index
      invariant forall i :: 0 <= i < index ==> inside[i] == rest[i].body
      invariant forall i :: 0 <= i < index ==> now[i] == Taken(rest[i])
      invariant forall i :: index <= i < |rest| ==> now[i] == rest[i]
    {
      inside := inside + [now[index].body];
      now := now[index := Taken(now[index])];
    }
  }

  lemma BodyBytesFront(records: seq<Record>, n: nat)
    requires 0 < n <= |records|
    ensures BodyBytes(records[n - 1..]) == |records[n - 1].body| + BodyBytes(records[n..])
  {
    assert records[n - 1..][1..] == records[n..];
  }

  lemma {:induction false} BodyBytesLess(records: seq<Record>, m: nat, n: nat)
    requires m <= n <= |records|
    ensures BodyBytes(records[n..]) <= BodyBytes(records[m..])
    decreases n - m
  {
    if m < n {
      BodyBytesFront(records, m + 1);
      BodyBytesLess(records, m + 1, n);
    }
  }

  /** Of `n` messages, how many are left when the last are cut until their bodies
      cover what is over, or one is left. */
  ghost function Left(rest: seq<Record>, excess: int, n: nat): (left: nat)
    requires n <= |rest|
    ensures left <= n && (n > 0 ==> left > 0)
  {
    if n <= 1 || BodyBytes(rest[n..]) >= excess then n else Left(rest, excess, n - 1)
  }

  lemma {:induction false} LeftIs(rest: seq<Record>, excess: int, n: nat)
    requires 0 < n <= |rest| && (n < |rest| ==> BodyBytes(rest[n + 1..]) < excess)
    ensures var left := Left(rest, excess, n);
            && (left == 1 || BodyBytes(rest[left..]) >= excess)
            && (left < |rest| ==> BodyBytes(rest[left + 1..]) < excess)
  {
    hide BodyBytes;
    if n > 1 && BodyBytes(rest[n..]) < excess {
      LeftIs(rest, excess, n - 1);
    }
  }

  /** How many messages an envelope is cut to. */
  ghost function Fits(header: nat, maxBytes: nat, rest: seq<Record>, numbers: seq<U64>): nat {
    Left(rest, SizeOf(header, rest, numbers) - maxBytes, |rest|)
  }

  lemma FitsAsNeeded(header: nat, maxBytes: nat, rest: seq<Record>, numbers: seq<U64>)
    requires rest != []
    ensures CutAsNeeded(header, maxBytes, rest, numbers, Fits(header, maxBytes, rest, numbers))
  {
    hide SizeOf, BodyBytes;
    LeftIs(rest, SizeOf(header, rest, numbers) - maxBytes, |rest|);
    LeftAll(rest, SizeOf(header, rest, numbers) - maxBytes);
  }

  /** How many messages the next frame of a batch has, or are given up on: one, where the
      envelope of an unconfirmed batch could not be made. */
  ghost function FrameCount(header: nat, maxBytes: nat, confirm: bool, rest: seq<Record>, numbers: seq<U64>, makes: bool): (count: nat)
    requires rest != []
    ensures 0 < count <= |rest|
  {
    if makes || confirm then Fits(header, maxBytes, rest, Carried(confirm, numbers)) else 1
  }

  /** How a batch goes: the rest of its envelopes' bytes, their bound, whether it is
      confirmed, and of each place in it whether an envelope that begins there can be made. */
  datatype Way = Way(header: nat, maxBytes: nat, confirm: bool, makes: nat -> bool)
  {
    ghost function Count(rest: seq<Record>, numbers: seq<U64>, begin: nat): (count: nat)
      requires rest != []
      ensures 0 < count <= |rest|
    {
      FrameCount(header, maxBytes, confirm, rest, numbers, makes(begin))
    }
  }

  /** The last messages cut, as many at once as their bodies cover what is over. */
  method CutExcess(rest: seq<Record>, now: seq<Record>, inside: seq<Body>, excess: nat)
    returns (given: seq<Record>, left: seq<Body>)
    requires |rest| > 1 && Inside(rest, now, |rest|) && inside == Bodies(rest) && excess > 0
    ensures 0 < |left| < |rest| && left == Bodies(rest[..|left|]) && Inside(rest, given, |left|)
    ensures |left| > 1 ==> BodyBytes(rest[|left|..]) >= excess
    ensures |left| == 1 <==> BodyBytes(rest[2..]) < excess
    ensures |left| == Left(rest, excess, |rest|)
  {
    hide BodyBytes;
    given, left := now, inside;
    var cut := 0;
    assert rest[..|rest|] == rest && rest[|rest|..] == [];
    assert BodyBytes([]) == 0 by { NoBodyBytes(); }
    while |left| > 1 && cut < excess
      invariant 0 < |left| <= |rest| && left == Bodies(rest[..|left|]) && Inside(rest, given, |left|)
      invariant cut == BodyBytes(rest[|left|..])
      invariant |left| == |rest| ==> cut == 0
      invariant |left| == 1 ==> BodyBytes(rest[2..]) < excess
      invariant Left(rest, excess, |rest|) == Left(rest, excess, |left|)
    {
      var last := |left| - 1;
      TakenGivenBack(rest[last]);
      BodyBytesFront(rest, last + 1);
      cut := cut + |left[last]|;
      given := given[last := GivenBack(given[last], left[last])];
      left := left[..last];
    }
    if |left| > 1 {
      BodyBytesLess(rest, 2, |left|);
    }
  }

  lemma NoBodyBytes()
    ensures BodyBytes([]) == 0
  {
  }

  /** An envelope cut until it fits, or holds one message: once over is enough. */
  method CutToFit(rest: seq<Record>, numbers: seq<U64>, confirm: bool, header: nat, maxBytes: nat, taken: seq<Record>,
                  inside: seq<Body>) returns (now: seq<Record>, left: seq<Body>, pairs: seq<U64>, ghost passes: nat)
    requires rest != [] && |numbers| == |rest| && NonZero(numbers)
    requires Inside(rest, taken, |rest|) && inside == Bodies(rest)
    ensures 0 < |left| <= |rest| && left == Bodies(rest[..|left|]) && Inside(rest, now, |left|)
    ensures pairs == if confirm then Encode(numbers[..|left|]) else []
    ensures |left| > 1 ==> EnvelopeSize(header, left, pairs) <= maxBytes
    ensures !confirm ==> (|left| == 1 <==> |rest| == 1 || CutToOne(header, maxBytes, rest))
    ensures |left| == Fits(header, maxBytes, rest, Carried(confirm, numbers))
    ensures CutAsNeeded(header, maxBytes, rest, Carried(confirm, numbers), |left|)
    ensures passes <= 1
  {
    hide EnvelopeSize, Encode, BodyBytes, CutAsNeeded;
    FitsAsNeeded(header, maxBytes, rest, Carried(confirm, numbers));
    LeftAll(rest, SizeOf(header, rest, Carried(confirm, numbers)) - maxBytes);
    now, left := taken, inside;
    assert rest[..|rest|] == rest && numbers[..|rest|] == numbers;
    assert Encode([]) == [] by { NoPairs(); }
    pairs := if confirm then Encode(numbers) else [];
    var size := EnvelopeSize(header, left, pairs);
    ghost var first := size;
    passes := 0;
    while |left| > 1 && size > maxBytes
      invariant passes <= 1 && size == EnvelopeSize(header, left, pairs)
      invariant 0 < |left| <= |rest| && left == Bodies(rest[..|left|]) && Inside(rest, now, |left|)
      invariant pairs == if confirm then Encode(numbers[..|left|]) else []
      invariant passes == 0 ==> left == inside && now == taken && size == first
      invariant passes == 1 ==> |rest| > 1 && first > maxBytes && (|left| > 1 ==> size <= maxBytes)
      invariant passes == 1 ==> (|left| == 1 <==> BodyBytes(rest[2..]) < first - maxBytes)
      invariant passes == 1 ==> |left| == Left(rest, first - maxBytes, |rest|)
      decreases |left|
    {
      now, left := CutExcess(rest, now, left, size - maxBytes);
      EnvelopeShrinks(header, rest, if confirm then numbers else [], |left|);
      pairs := if confirm then Encode(numbers[..|left|]) else [];
      size := EnvelopeSize(header, left, pairs);
      passes := passes + 1;
    }
  }

  lemma LeftAll(rest: seq<Record>, excess: int)
    ensures excess <= 0 ==> Left(rest, excess, |rest|) == |rest|
  {
  }

  lemma NoPairs()
    ensures Encode([]) == []
  {
  }

  /** The next of a batch's messages made into a frame; those after them have
      their bodies again. */
  method NextFrame(rest: seq<Record>, numbers: seq<U64>, confirm: bool, header: nat, maxBytes: nat, makes: bool)
    returns (out: Handed, now: seq<Record>)
    requires rest != [] && |numbers| == |rest| && NonZero(numbers)
    ensures HandedOk(header, maxBytes, confirm, out, rest, numbers)
    ensures |now| == |rest| && 0 < Taking(out) <= |rest| && now[Taking(out)..] == rest[Taking(out)..]
    ensures Taking(out) == FrameCount(header, maxBytes, confirm, rest, numbers, makes)
    ensures confirm ==> out.Envelope? == makes
  {
    hide SizeOf, EnvelopeSize, Encode, BodyBytes, Left, CutAsNeeded;
    now := rest;
    var end := |rest|;
    if end > 1 || confirm {
      var inside, pairs;
      now, inside := TakeBodies(rest);
      ghost var passes;
      now, inside, pairs, passes := CutToFit(rest, numbers, confirm, header, maxBytes, now, inside);
      end := |inside|;
      if end > 1 || confirm {
        if makes {
          out := Envelope(Ids(now[..end]), inside, pairs);
          assert Ids(now[..end]) == Ids(rest[..end]);
          assert now[end..] == rest[end..];
          return;
        }
        now := GiveAllBack(rest, now, inside);
      }
    }
    if confirm {
      out := GivenUp(Ids(now[..end]));
      assert now[end..] == rest[end..];
      return;
    }
    out := Alone(now[0].id, now[0].body);
    assert now[1..] == rest[1..];
  }

  /** The envelope could not be made: every body back with its message. */
  method GiveAllBack(rest: seq<Record>, taken: seq<Record>, inside: seq<Body>) returns (now: seq<Record>)
    requires |inside| <= |rest| && Inside(rest, taken, |inside|) && inside == Bodies(rest[..|inside|])
    ensures now == rest
  {
    now := taken;
    for index := 0 to |inside|
      invariant |now| == |rest|
      invariant forall i :: 0 <= i < index || |inside| <= i < |rest| ==> now[i] == rest[i]
      invariant forall i :: index <= i < |inside| ==> now[i] == Taken(rest[i])
    {
      TakenGivenBack(rest[index]);
      now := now[index := GivenBack(now[index], inside[index])];
    }
  }

  function Taking(out: Handed): nat {
    match out
    case Envelope(ids, _, _) => |ids|
    case Alone(_, _) => 1
    case GivenUp(ids) => |ids|
  }

  function IdsOf(out: Handed): seq<nat> {
    match out
    case Envelope(ids, _, _) => ids
    case Alone(id, _) => [id]
    case GivenUp(ids) => ids
  }

  function AllIds(handed: seq<Handed>): seq<nat> {
    if handed == [] then [] else AllIds(handed[..|handed| - 1]) + IdsOf(handed[|handed| - 1])
  }

  /** What was handed over covers some first messages of the batch, in order. */
  ghost predicate HandedSoFar(header: nat, maxBytes: nat, confirm: bool, handed: seq<Handed>, records: seq<Record>,
                              numbers: seq<U64>, begin: nat)
    requires |numbers| == |records|
    decreases handed
  {
    if handed == [] then begin == 0
    else
      var out := handed[|handed| - 1];
      && Taking(out) <= begin <= |records|
      && HandedOk(header, maxBytes, confirm, out, records[begin - Taking(out)..], numbers[begin - Taking(out)..])
      && HandedSoFar(header, maxBytes, confirm, handed[..|handed| - 1], records, numbers, begin - Taking(out))
  }

  /** A whole batch; `makes` says of each place in it whether an envelope that begins
      there can be made. */
  method SendBatch(records: seq<Record>, numbers: seq<U64>, confirm: bool, header: nat, maxBytes: nat, makes: nat -> bool)
    returns (handed: seq<Handed>)
    requires |numbers| == |records| && NonZero(numbers)
    ensures HandedSoFar(header, maxBytes, confirm, handed, records, numbers, |records|)
    ensures AllIds(handed) == Ids(records)
    ensures |Arrivals(handed)| == |records|
    ensures forall i :: 0 <= i < |records| ==>
      ArrivesAs(Arrivals(handed)[i], confirm, records[i], i in Starts(handed) && LosesBody(header, maxBytes, records[i..]))
    ensures confirm && (forall i: nat :: makes(i)) ==> Arrivals(handed) == Whole(records)
    ensures !confirm ==>
      (Arrivals(handed) == Whole(records) <==>
       forall i: nat :: FrameBegins(Way(header, maxBytes, confirm, makes), records, numbers, i) ==>
         !LosesBody(header, maxBytes, records[i..]))
    ensures forall i: nat :: i < |records| ==>
      (i in Starts(handed) <==> FrameBegins(Way(header, maxBytes, confirm, makes), records, numbers, i))
    ensures (confirm || |records| > 1) && records != [] && makes(0) && SizeOf(header, records, Carried(confirm, numbers)) <= maxBytes ==>
      handed == [Envelope(Ids(records), Bodies(records), if confirm then Encode(numbers) else [])]
  {
    hide HandedOk, LosesBody, Arrivals, Starts, Whole, ArrivesAs, BeginsAt, FrameBegins, FrameCount, HandedSoFar, AllIds, SizeOf,
         CutAsNeeded, Encode;
    var way := Way(header, maxBytes, confirm, makes);
    SoFarNothing(way, records, numbers);
    handed := [];
    var begin := 0;
    var batch := records;
    while begin < |records|
      invariant begin <= |records| == |batch| && batch[begin..] == records[begin..]
      invariant HandedSoFar(header, maxBytes, confirm, handed, records, numbers, begin)
      invariant BeginsAt(way, records, numbers, handed, begin)
      invariant confirm && (forall i: nat :: makes(i)) ==> forall k :: 0 <= k < |handed| ==> handed[k].Envelope?
      invariant begin == 0 <==> handed == []
      invariant FitsInOne(way, records, numbers) && begin > 0 ==> begin == |records| && InOne(way, records, numbers, handed)
    {
      var out, rest := NextFrame(batch[begin..], numbers[begin..], confirm, header, maxBytes, makes(begin));
      assert rest[Taking(out)..] == batch[begin..][Taking(out)..] == batch[begin + Taking(out)..];
      batch := batch[..begin] + rest;
      assert batch[begin + Taking(out)..] == rest[Taking(out)..];
      assert records[begin + Taking(out)..] == records[begin..][Taking(out)..];
      SoFarNext(header, maxBytes, confirm, handed, records, numbers, begin, out);
      HandedArrives(header, maxBytes, confirm, out, records[begin..], numbers[begin..]);
      BeginsNext(way, records, numbers, handed, begin, out);
      if begin == 0 && FitsInOne(way, records, numbers) {
        assert records[0..] == records && numbers[0..] == numbers;
        OneEnvelope(way, records, numbers, out);
      }
      handed := handed + [out];
      begin := begin + Taking(out);
    }
    InOrder(header, maxBytes, confirm, handed, records, numbers, begin);
    AllArrive(header, maxBytes, confirm, handed, records, numbers, begin);
    AllBegin(way, records, numbers, handed);
    if !confirm {
      AllWhole(header, maxBytes, handed, records);
    } else if forall k :: 0 <= k < |handed| ==> handed[k].Envelope? {
      AllEnvelopes(header, maxBytes, handed, records, numbers, begin);
    }
    assert records[..begin] == records;
  }

  /** A batch that fits an envelope, which can be made. */
  ghost predicate FitsInOne(way: Way, records: seq<Record>, numbers: seq<U64>) {
    && (way.confirm || |records| > 1) && records != [] && way.makes(0)
    && SizeOf(way.header, records, Carried(way.confirm, numbers)) <= way.maxBytes
  }

  ghost predicate InOne(way: Way, records: seq<Record>, numbers: seq<U64>, handed: seq<Handed>) {
    handed == [Envelope(Ids(records), Bodies(records), if way.confirm then Encode(numbers) else [])]
  }

  lemma OneEnvelope(way: Way, records: seq<Record>, numbers: seq<U64>, out: Handed)
    requires |numbers| == |records| && FitsInOne(way, records, numbers)
    requires HandedOk(way.header, way.maxBytes, way.confirm, out, records, numbers)
    requires Taking(out) == FrameCount(way.header, way.maxBytes, way.confirm, records, numbers, true)
    requires way.confirm ==> out.Envelope?
    ensures Taking(out) == |records| && InOne(way, records, numbers, [out])
  {
    hide SizeOf, EnvelopeSize, Encode, CutToOne;
    LeftAll(records, SizeOf(way.header, records, Carried(way.confirm, numbers)) - way.maxBytes);
    assert records[..|records|] == records && numbers[..|records|] == numbers;
  }

  lemma SoFarNothing(way: Way, records: seq<Record>, numbers: seq<U64>)
    requires |numbers| == |records|
    ensures HandedSoFar(way.header, way.maxBytes, way.confirm, [], records, numbers, 0)
    ensures BeginsAt(way, records, numbers, [], 0)
  {
  }

  lemma SoFarNext(header: nat, maxBytes: nat, confirm: bool, handed: seq<Handed>, records: seq<Record>, numbers: seq<U64>,
                  begin: nat, out: Handed)
    requires |numbers| == |records| && begin + Taking(out) <= |records|
    requires HandedSoFar(header, maxBytes, confirm, handed, records, numbers, begin)
    requires HandedOk(header, maxBytes, confirm, out, records[begin..], numbers[begin..])
    ensures HandedSoFar(header, maxBytes, confirm, handed + [out], records, numbers, begin + Taking(out))
  {
    hide HandedOk;
    assert (handed + [out])[..|handed|] == handed;
  }

  /** Every message handed over once, in the order of the batch. */
  lemma {:induction false} InOrder(header: nat, maxBytes: nat, confirm: bool, handed: seq<Handed>, records: seq<Record>,
                                   numbers: seq<U64>, begin: nat)
    requires |numbers| == |records| && begin <= |records|
    requires HandedSoFar(header, maxBytes, confirm, handed, records, numbers, begin)
    ensures AllIds(handed) == Ids(records[..begin])
    decreases handed
  {
    hide HandedOk, Ids, IdsOf;
    if handed == [] {
      NoIds(records);
    } else {
      var out := handed[|handed| - 1];
      var before := begin - Taking(out);
      InOrder(header, maxBytes, confirm, handed[..|handed| - 1], records, numbers, before);
      HandedIds(header, maxBytes, confirm, out, records[before..], numbers[before..]);
      IdsJoin(records, before, begin);
    }
  }

  lemma NoIds(records: seq<Record>)
    ensures Ids(records[..0]) == []
  {
  }

  lemma IdsJoin(records: seq<Record>, before: nat, begin: nat)
    requires before <= begin <= |records|
    ensures Ids(records[..begin]) == Ids(records[..before]) + Ids(records[before..][..begin - before])
  {
  }

  lemma HandedIds(header: nat, maxBytes: nat, confirm: bool, out: Handed, rest: seq<Record>, numbers: seq<U64>)
    requires |numbers| == |rest| && HandedOk(header, maxBytes, confirm, out, rest, numbers)
    ensures 0 < Taking(out) <= |rest| && IdsOf(out) == Ids(rest[..Taking(out)])
  {
    hide CutToOne, EnvelopeSize, Encode;
  }

  // Bodies

  /** A message with the body it arrives with, or none where it was given up on. */
  type Arrival = (nat, Option<Body>)

  function ArrivalsOf(out: Handed): (arrivals: seq<Arrival>) {
    match out
    case Envelope(ids, bodies, _) =>
      seq(|ids|, i requires 0 <= i < |ids| => (ids[i], if i < |bodies| then Some(bodies[i]) else None))
    case Alone(id, body) => [(id, Some(body))]
    case GivenUp(ids) => seq(|ids|, i requires 0 <= i < |ids| => (ids[i], None))
  }

  function Arrivals(handed: seq<Handed>): seq<Arrival> {
    if handed == [] then [] else Arrivals(handed[..|handed| - 1]) + ArrivalsOf(handed[|handed| - 1])
  }

  lemma OneHanded(out: Handed)
    ensures Arrivals([out]) == ArrivalsOf(out) && Starts([out]) == {0}
  {
    assert [out][..0] == [];
  }

  /** Every message with its body. */
  function Whole(records: seq<Record>): seq<Arrival> {
    seq(|records|, i requires 0 <= i < |records| => (records[i].id, Some(records[i].body)))
  }

  /** Where the frames of a batch begin. */
  function Starts(handed: seq<Handed>): set<nat> {
    if handed == [] then {} else Starts(handed[..|handed| - 1]) + {|Arrivals(handed[..|handed| - 1])|}
  }

  /** Whether a frame of a batch begins at a message: told from the batch alone, frame by
      frame from its first message. */
  ghost predicate FrameBegins(way: Way, records: seq<Record>, numbers: seq<U64>, at: nat)
    requires |numbers| == |records|
  {
    at < |records| && BeginsFrom(way, records, numbers, 0, at)
  }

  ghost predicate BeginsFrom(way: Way, records: seq<Record>, numbers: seq<U64>, begin: nat, at: nat)
    requires begin <= |records| == |numbers|
    decreases |records| - begin
  {
    begin == at ||
    (begin < |records| && BeginsFrom(way, records, numbers, begin + way.Count(records[begin..], numbers[begin..], begin), at))
  }

  /** So far the frames begin where they do, and the next one at `begin`. */
  ghost predicate BeginsAt(way: Way, records: seq<Record>, numbers: seq<U64>, handed: seq<Handed>, begin: nat)
    requires |numbers| == |records|
  {
    && begin <= |records| && |Arrivals(handed)| == begin
    && forall at: nat :: BeginsFrom(way, records, numbers, 0, at) <==>
                    at in Starts(handed) || BeginsFrom(way, records, numbers, begin, at)
  }

  /** A message cut down to, its body in an envelope that is not sent. */
  ghost predicate LosesBody(header: nat, maxBytes: nat, rest: seq<Record>) {
    rest != [] && CutToOne(header, maxBytes, rest) && !rest[0].shared && rest[0].body != []
  }

  /** A confirmed message arrives with its body or is given up on; another one with
      its body, or, where it loses it, with nothing. */
  ghost predicate ArrivesAs(arrival: Arrival, confirm: bool, record: Record, loses: bool) {
    && arrival.0 == record.id
    && if confirm then arrival.1 == Some(record.body) || arrival.1 == None
       else arrival.1 == Some(if loses then [] else record.body) && (loses ==> record.body != [])
  }

  lemma HandedArrives(header: nat, maxBytes: nat, confirm: bool, out: Handed, rest: seq<Record>, numbers: seq<U64>)
    requires |numbers| == |rest| && HandedOk(header, maxBytes, confirm, out, rest, numbers)
    ensures 0 < Taking(out) == |ArrivalsOf(out)| <= |rest|
    ensures forall i :: 0 <= i < Taking(out) ==>
      ArrivesAs(ArrivalsOf(out)[i], confirm, rest[i], i == 0 && LosesBody(header, maxBytes, rest))
  {
    hide CutToOne, EnvelopeSize, Encode;
  }

  /** What arrives of the messages handed over. */
  lemma {:induction false} AllArrive(header: nat, maxBytes: nat, confirm: bool, handed: seq<Handed>, records: seq<Record>,
                                     numbers: seq<U64>, begin: nat)
    requires |numbers| == |records| && begin <= |records|
    requires HandedSoFar(header, maxBytes, confirm, handed, records, numbers, begin)
    ensures |Arrivals(handed)| == begin && forall i :: i in Starts(handed) ==> i < begin
    ensures forall i :: 0 <= i < begin ==>
      ArrivesAs(Arrivals(handed)[i], confirm, records[i], i in Starts(handed) && LosesBody(header, maxBytes, records[i..]))
    decreases handed
  {
    hide HandedOk, ArrivalsOf, ArrivesAs, LosesBody;
    if handed != [] {
      var less, out := handed[..|handed| - 1], handed[|handed| - 1];
      var before := begin - Taking(out);
      var rest := records[before..];
      AllArrive(header, maxBytes, confirm, less, records, numbers, before);
      HandedArrives(header, maxBytes, confirm, out, rest, numbers[before..]);
      forall i | before <= i < begin
        ensures ArrivesAs(Arrivals(handed)[i], confirm, records[i], i in Starts(handed) && LosesBody(header, maxBytes, records[i..]))
      {
        assert records[i] == rest[i - before];
        assert i in Starts(handed) <==> i == before;
      }
    }
  }

  lemma AllWhole(header: nat, maxBytes: nat, handed: seq<Handed>, records: seq<Record>)
    requires |Arrivals(handed)| == |records|
    requires forall i :: 0 <= i < |records| ==>
      ArrivesAs(Arrivals(handed)[i], false, records[i], i in Starts(handed) && LosesBody(header, maxBytes, records[i..]))
    ensures Arrivals(handed) == Whole(records) <==>
            forall i :: i in Starts(handed) && i < |records| ==> !LosesBody(header, maxBytes, records[i..])
  {
    hide Arrivals, Starts, LosesBody;
    if Arrivals(handed) == Whole(records) {
      forall i | i in Starts(handed) && i < |records| ensures !LosesBody(header, maxBytes, records[i..]) {
        assert Arrivals(handed)[i] == Whole(records)[i];
      }
    }
  }

  lemma BeginsNext(way: Way, records: seq<Record>, numbers: seq<U64>, handed: seq<Handed>, begin: nat, out: Handed)
    requires |numbers| == |records| && BeginsAt(way, records, numbers, handed, begin) && begin < |records|
    requires Taking(out) == |ArrivalsOf(out)| == way.Count(records[begin..], numbers[begin..], begin)
    ensures BeginsAt(way, records, numbers, handed + [out], begin + Taking(out))
  {
    hide FrameCount, ArrivalsOf;
    assert (handed + [out])[..|handed|] == handed;
    assert Starts(handed + [out]) == Starts(handed) + {begin};
    forall at: nat ensures BeginsFrom(way, records, numbers, begin, at) <==>
                      at == begin || BeginsFrom(way, records, numbers, begin + Taking(out), at)
    {
    }
  }

  lemma AllBegin(way: Way, records: seq<Record>, numbers: seq<U64>, handed: seq<Handed>)
    requires |numbers| == |records| && BeginsAt(way, records, numbers, handed, |records|)
    ensures forall at: nat :: FrameBegins(way, records, numbers, at) <==> at in Starts(handed) && at < |records|
  {
    assert forall at: nat :: BeginsFrom(way, records, numbers, |records|, at) <==> at == |records|;
  }

  lemma {:induction false} EnvelopesArrive(header: nat, maxBytes: nat, handed: seq<Handed>, records: seq<Record>,
                                           numbers: seq<U64>, begin: nat)
    requires |numbers| == |records| && begin <= |records|
    requires HandedSoFar(header, maxBytes, true, handed, records, numbers, begin)
    requires forall k :: 0 <= k < |handed| ==> handed[k].Envelope?
    ensures forall i :: 0 <= i < |Arrivals(handed)| ==> Arrivals(handed)[i].1.Some?
    decreases handed
  {
    hide EnvelopeSize, Encode, CutToOne;
    if handed != [] {
      var out := handed[|handed| - 1];
      assert out.Envelope?;
      EnvelopesArrive(header, maxBytes, handed[..|handed| - 1], records, numbers, begin - Taking(out));
      assert |out.bodies| == |out.ids|;
    }
  }

  lemma AllEnvelopes(header: nat, maxBytes: nat, handed: seq<Handed>, records: seq<Record>, numbers: seq<U64>, begin: nat)
    requires |numbers| == |records| == begin
    requires HandedSoFar(header, maxBytes, true, handed, records, numbers, begin)
    requires forall k :: 0 <= k < |handed| ==> handed[k].Envelope?
    ensures Arrivals(handed) == Whole(records)
  {
    hide HandedSoFar, Arrivals, Starts, LosesBody;
    AllArrive(header, maxBytes, true, handed, records, numbers, begin);
    EnvelopesArrive(header, maxBytes, handed, records, numbers, begin);
  }

  /** Two messages of 40 bytes, 100 bytes at most with a header of 20: the first is
      sent with nothing in it. */
  lemma BodyIsLost(out: Handed)
    requires var rest := [Record(1, seq(40, _ => 7), false), Record(2, seq(40, _ => 7), false)];
             HandedOk(20, 100, false, out, rest, [1, 2])
    ensures out == Alone(1, [])
  {
    var rest := [Record(1, seq(40, _ => 7), false), Record(2, seq(40, _ => 7), false)];
    assert Bodies(rest)[..1][..0] == [];
    assert BatchSize(Bodies(rest)[..1]) == 42;
    assert BatchSize(Bodies(rest)) == 84;
    assert SizeOf(20, rest, []) == 106;
    assert rest[2..] == [];
    assert CutToOne(20, 100, rest);
    assert rest[..2] == rest;
  }
}
