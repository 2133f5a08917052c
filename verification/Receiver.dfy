/** What a client does with what it reads: copies of a message seen are dropped, a
    batch is split into the messages packed in it, and a full queue drops what it
    has no room for, to be taken again. */
module Receiver {
  import opened Common
  import opened NumberPairs
  import BatchFrames
  import BatchIndex
  import Batching
  import SpanSet

  type Body = BatchFrames.Body
  type Record = BatchFrames.Record

  /** A message as it parses; a plain event has nothing a batch may not carry. */
  datatype Event = Event(id: nat, messageType: nat, key: Option<string>, plain: bool)

  type Parser = Body -> Option<Event>

  /** A message read: by itself, or an envelope of a batch. */
  datatype Frame = Frame(id: nat, sender: nat, messageType: nat, key: Option<string>, batch: Option<seq<Body>>,
                         batchParses: bool, pairs: seq<U64>, plain: bool)

  /** A message queued, with the number it is confirmed by, 0 for none. */
  datatype Incoming = Incoming(event: Event, number: U64)

  // Splitting

  /** A body that parses to an event this batch may carry. */
  predicate Belongs(parse: Parser, frame: Frame, body: Body) {
    var parsed := parse(body);
    && parsed.Some? && parsed.value.id != 0 && parsed.value.plain
    && parsed.value.messageType == frame.messageType && parsed.value.key == frame.key
  }

  /** The messages of a batch that belong, each with its number. */
  function Kept(parse: Parser, frame: Frame, bodies: seq<Body>, numbers: seq<U64>): seq<Incoming>
    requires |numbers| == |bodies|
  {
    if bodies == [] then []
    else
      var last := |bodies| - 1;
      Kept(parse, frame, bodies[..last], numbers[..last]) +
      if Belongs(parse, frame, bodies[last]) then [Incoming(parse(bodies[last]).value, numbers[last])] else []
  }

  /** The numbers of those that do not, confirmed as failed. */
  function Failed(parse: Parser, frame: Frame, bodies: seq<Body>, numbers: seq<U64>): seq<U64>
    requires |numbers| == |bodies|
  {
    if bodies == [] then []
    else
      var last := |bodies| - 1;
      Failed(parse, frame, bodies[..last], numbers[..last]) +
      if !Belongs(parse, frame, bodies[last]) && numbers[last] != 0 then [numbers[last]] else []
  }

  /** What a queue takes of some messages: those confirmed, and of the others those
      not seen, with the ids seen afterwards. */
  function TakenIn(seen: seq<nat>, capacity: nat, messages: seq<Incoming>): (seq<Incoming>, seq<nat>)
    requires 0 < capacity
  {
    if messages == [] then ([], seen)
    else
      var last := messages[|messages| - 1];
      var (taken, now) := TakenIn(seen, capacity, messages[..|messages| - 1]);
      if last.number != 0 then (taken + [last], now)
      else if last.event.id in now then (taken, now)
      else (taken + [last], SpanSet.Inserted(now, last.event.id, capacity))
  }

  // Ids taken, and the messages queued under them

  /** The ids of the messages queued without a number, in order. */
  ghost function Loose(log: seq<Incoming>): seq<nat> {
    if log == [] then []
    else Loose(log[..|log| - 1]) + if log[|log| - 1].number == 0 then [log[|log| - 1].event.id] else []
  }

  /** An id taken again was taken at least `capacity` ids before. */
  ghost predicate Apart(ids: seq<nat>, capacity: nat) {
    forall i, j :: 0 <= i < j < |ids| && ids[i] == ids[j] ==> j - i >= capacity
  }

  /** The ids seen are the last ones taken: as many as fit, or one less where a full queue
      dropped what came after. */
  ghost predicate Remembers(seen: seq<nat>, ids: seq<nat>, capacity: nat) {
    && |seen| <= capacity && |seen| <= |ids| && seen == ids[|ids| - |seen|..]
    && (|seen| == |ids| || |seen| >= capacity - 1)
  }

  /** Each message queued without a number is queued under an id taken for it. */
  ghost predicate Spotted(log: seq<Incoming>, ids: seq<nat>, spots: seq<nat>) {
    && |spots| == |Loose(log)|
    && (forall k :: 0 <= k < |spots| ==> spots[k] < |ids| && ids[spots[k]] == Loose(log)[k])
    && (forall k, l :: 0 <= k < l < |spots| ==> spots[k] < spots[l])
  }

  ghost predicate Filtered(seen: seq<nat>, capacity: nat, ids: seq<nat>, log: seq<Incoming>, spots: seq<nat>) {
    Remembers(seen, ids, capacity) && Apart(ids, capacity) && Spotted(log, ids, spots)
  }

  /** Over everything queued: a message without a number is not queued again under the same
      id before `capacity` ids more have been taken. */
  lemma NotQueuedTwice(seen: seq<nat>, capacity: nat, ids: seq<nat>, log: seq<Incoming>, spots: seq<nat>, k: nat, l: nat)
    requires Filtered(seen, capacity, ids, log, spots) && k < l < |Loose(log)| && Loose(log)[k] == Loose(log)[l]
    ensures spots[l] - spots[k] >= capacity && spots[l] < |ids|
  {
  }

  lemma TakeNew(seen: seq<nat>, capacity: nat, ids: seq<nat>, id: nat)
    requires 0 < capacity && Remembers(seen, ids, capacity) && Apart(ids, capacity) && id !in seen
    ensures var now := SpanSet.Inserted(seen, id, capacity);
            Remembers(now, ids + [id], capacity) && Apart(ids + [id], capacity) && (|now| == |ids| + 1 || |now| == capacity)
  {
    hide Apart;
    FarApart(seen, capacity, ids, id);
    var now := SpanSet.Inserted(seen, id, capacity);
    LastOnes(ids, |seen|, id);
    if |seen| == capacity {
      LastOnes(ids, |seen| - 1, id);
    }
  }

  lemma LastOnes(ids: seq<nat>, n: nat, id: nat)
    requires n <= |ids|
    ensures (ids + [id])[|ids| - n..] == ids[|ids| - n..] + [id]
    ensures 0 < n ==> ids[|ids| - n..][1..] == ids[|ids| - n + 1..]
  {
  }

  lemma FarApart(seen: seq<nat>, capacity: nat, ids: seq<nat>, id: nat)
    requires 0 < capacity && Remembers(seen, ids, capacity) && Apart(ids, capacity) && id !in seen
    ensures Apart(ids + [id], capacity)
  {
    var begin := |ids| - |seen|;
    forall i | begin <= i < |ids| ensures ids[i] != id {
      assert ids[i] == seen[i - begin];
    }
  }

  /** Forgotten at once, an id was not taken. */
  lemma NotTaken(seen: seq<nat>, capacity: nat, ids: seq<nat>, id: nat)
    requires 0 < capacity && Remembers(seen, ids, capacity) && id !in seen
    ensures var now := SpanSet.Inserted(seen, id, capacity);
            now != [] && Remembers(now[..|now| - 1], ids, capacity) && id !in now[..|now| - 1]
  {
  }

  lemma LooseMore(log: seq<Incoming>, message: Incoming)
    ensures Loose(log + [message]) == Loose(log) + if message.number == 0 then [message.event.id] else []
  {
    assert (log + [message])[..|log|] == log;
  }

  lemma SpottedMore(log: seq<Incoming>, ids: seq<nat>, spots: seq<nat>, message: Incoming)
    requires Spotted(log, ids, spots)
    ensures message.number != 0 ==> Spotted(log + [message], ids, spots)
    ensures message.number == 0 ==> Spotted(log + [message], ids + [message.event.id], spots + [|ids|])
  {
    LooseMore(log, message);
    hide Loose;
  }

  lemma SpottedId(log: seq<Incoming>, ids: seq<nat>, spots: seq<nat>, id: nat)
    requires Spotted(log, ids, spots)
    ensures Spotted(log, ids + [id], spots)
  {
    hide Loose;
  }

  // What is taken of a batch

  lemma {:induction false} NowIds(seen: seq<nat>, capacity: nat, messages: seq<Incoming>, x: nat)
    requires 0 < capacity && x in TakenIn(seen, capacity, messages).1
    ensures x in seen || exists j :: 0 <= j < |messages| && messages[j].number == 0 && messages[j].event.id == x
  {
    if messages != [] {
      var last := |messages| - 1;
      var now := TakenIn(seen, capacity, messages[..last]).1;
      if x in now {
        NowIds(seen, capacity, messages[..last], x);
        if x !in seen {
          var j :| 0 <= j < last && messages[..last][j].number == 0 && messages[..last][j].event.id == x;
          assert messages[j].number == 0 && messages[j].event.id == x;
        }
      } else {
        assert messages[last].number == 0 && messages[last].event.id == x;
      }
    }
  }

  /** Of a batch, every confirmed message is taken, and every other the first time its id
      comes up that was not seen. */
  lemma {:induction false} TakesIn(seen: seq<nat>, capacity: nat, messages: seq<Incoming>, i: nat)
    requires 0 < capacity && i < |messages|
    requires messages[i].number != 0 ||
      (messages[i].event.id !in seen && forall j :: 0 <= j < i ==> messages[j].number != 0 || messages[j].event.id != messages[i].event.id)
    ensures messages[i] in TakenIn(seen, capacity, messages).0
  {
    var last := |messages| - 1;
    if i < last {
      assert messages[..last][i] == messages[i];
      TakesIn(seen, capacity, messages[..last], i);
    } else if messages[i].number == 0 {
      var now := TakenIn(seen, capacity, messages[..last]).1;
      if messages[i].event.id in now {
        NowIds(seen, capacity, messages[..last], messages[i].event.id);
      }
    }
  }

  /** The ids seen afterwards: some of the last ones before, all while they fit, and new ones. */
  lemma {:induction false} NowForm(seen: seq<nat>, capacity: nat, messages: seq<Incoming>) returns (from: nat, more: seq<nat>)
    requires |seen| <= capacity && 0 < capacity
    ensures from <= |seen| && TakenIn(seen, capacity, messages).1 == seen[from..] + more && |more| <= |messages|
    ensures 0 < from ==> |seen| - from + |more| == capacity
    ensures |seen| - from + |more| <= capacity
  {
    if messages == [] {
      return 0, [];
    }
    var last := messages[|messages| - 1];
    from, more := NowForm(seen, capacity, messages[..|messages| - 1]);
    var now := seen[from..] + more;
    if last.number == 0 && last.event.id !in now {
      if |now| == capacity {
        if from < |seen| {
          assert now[1..] == seen[from + 1..] + more;
          from := from + 1;
        } else {
          assert now[1..] == seen[from..] + more[1..];
          more := more[1..];
        }
      }
      assert seen[from..] + (more + [last.event.id]) == (seen[from..] + more) + [last.event.id];
      more := more + [last.event.id];
    }
  }

  /** A message without a number is not taken if one of the last ids seen is its own, as long
      as the messages before it in the batch are no more than the set has room for. */
  lemma SeenNotTaken(seen: seq<nat>, capacity: nat, messages: seq<Incoming>, i: nat, p: nat)
    requires |seen| <= capacity && 0 < capacity && i < |messages| && p < |seen| && |seen| - p + i <= capacity
    requires messages[i].number == 0 && messages[i].event.id == seen[p]
    ensures TakenIn(seen, capacity, messages[..i + 1]) == TakenIn(seen, capacity, messages[..i])
  {
    var from, more := NowForm(seen, capacity, messages[..i]);
    assert from <= p;
    assert seen[from..][p - from] == seen[p];
    assert messages[..i + 1][..i] == messages[..i];
  }

  /** A set that remembers one id, which another one in the batch pushes out of it. */
  lemma SeenTakenAgain(event: Event, other: Event)
    requires event.id == 7 && other.id == 8
    ensures TakenIn([7], 1, [Incoming(other, 0), Incoming(event, 0)]) == ([Incoming(other, 0), Incoming(event, 0)], [7])
  {
    var first, second := Incoming(other, 0), Incoming(event, 0);
    TakenMore([7], 1, [], first);
    TakenMore([7], 1, [first], second);
    assert [] + [first] == [first] && [first] + [second] == [first, second];
    assert SpanSet.Inserted([7], 8, 1) == [8] && SpanSet.Inserted([8], 7, 1) == [7];
  }

  lemma TakenMore(seen: seq<nat>, capacity: nat, messages: seq<Incoming>, message: Incoming)
    requires 0 < capacity
    ensures var (taken, now) := TakenIn(seen, capacity, messages);
            TakenIn(seen, capacity, messages + [message]) ==
              if message.number != 0 then (taken + [message], now)
              else if message.event.id in now then (taken, now)
              else (taken + [message], SpanSet.Inserted(now, message.event.id, capacity))
  {
    assert (messages + [message])[..|messages|] == messages;
  }

  lemma {:induction false} TakesOnly(seen: seq<nat>, capacity: nat, messages: seq<Incoming>)
    requires 0 < capacity
    ensures forall m :: m in TakenIn(seen, capacity, messages).0 ==> m in messages
  {
    if messages != [] {
      TakesOnly(seen, capacity, messages[..|messages| - 1]);
    }
  }

  /** Messages without numbers under ids of their own, none seen, are all taken, in order. */
  lemma {:induction false} AllNew(seen: seq<nat>, capacity: nat, messages: seq<Incoming>)
    requires 0 < capacity && forall i :: 0 <= i < |messages| ==> messages[i].number == 0 && messages[i].event.id !in seen
    requires forall i, j :: 0 <= i < j < |messages| ==> messages[i].event.id != messages[j].event.id
    ensures TakenIn(seen, capacity, messages).0 == messages
  {
    if messages != [] {
      var last := |messages| - 1;
      var front := messages[..last];
      AllNew(seen, capacity, front);
      var now := TakenIn(seen, capacity, front).1;
      if messages[last].event.id in now {
        NowIds(seen, capacity, front, messages[last].event.id);
      }
      assert messages == front + [messages[last]];
    }
  }

  /** The numbers the walk over the pairs gives, 0 for each where there is no pair. */
  ghost function NumbersOf(pairs: seq<U64>, count: nat): (numbers: seq<U64>)
    ensures |numbers| == count
  {
    seq(count, i requires 0 <= i < count => if |pairs| >= 2 && i < |Expand(pairs)| then Expand(pairs)[i] else 0)
  }

  predicate Splits(frame: Frame) {
    frame.batch.Some? && frame.messageType > MAX_META_TYPE && frame.batchParses && |frame.batch.value| <= MAX_BATCH_RECORDS
  }

  class Receiver {
    const limit: nat
    const parse: Parser
    const seen: SpanSet.SpanSet
    var incoming: seq<Incoming>
    var failed: seq<(nat, U64)>
    var dropped: nat

    ghost var ids: seq<nat>       // every id taken, in order
    ghost var log: seq<Incoming>  // every message queued, in order
    ghost var spots: seq<nat>     // where in `ids` those without a number are

    ghost predicate Valid()
      reads this, seen, seen.slots, seen.ring
    {
      0 < seen.capacity && seen.Valid() && Filtered(seen.Contents(), seen.capacity, ids, log, spots) && Queued()
    }

    /** What is left to hand out is the last that was queued. */
    ghost predicate Queued()
      reads `log, `incoming
    {
      |incoming| <= |log| && incoming == log[|log| - |incoming|..]
    }

    /** An id has been inserted into the ids seen, which were `list`. */
    ghost predicate Offered(id: nat, list: seq<nat>)
      reads this, seen, seen.slots, seen.ring
    {
      && 0 < seen.capacity && seen.Valid() && id !in list && seen.Contents() == SpanSet.Inserted(list, id, seen.capacity)
      && Filtered(list, seen.capacity, ids, log, spots) && Queued()
    }

    /** Told to forget it, the set has not seen it. */
    method Forget(id: nat, ghost list: seq<nat>)
      requires Offered(id, list)
      modifies seen, seen.slots
      ensures Valid() && seen.Contents() == old(seen.Contents())[..|old(seen.Contents())| - 1] && id !in seen.Contents()
    {
      hide Apart, Spotted, Remembers, SpanSet.Found, SpanSet.Holds, SpanSet.RingList;
      NotTaken(list, seen.capacity, ids, id);
      seen.ForgetLast();
    }

    ghost method Keep(id: nat, list: seq<nat>)
      requires Offered(id, list)
      modifies `ids
      ensures Valid() && ids == old(ids) + [id]
    {
      hide Apart, Spotted, Remembers, SpanSet.Found, SpanSet.Holds, SpanSet.RingList;
      TakeNew(list, seen.capacity, ids, id);
      SpottedId(log, ids, spots, id);
      ids := ids + [id];
    }

    constructor (limit: nat, parse: Parser, home: SpanSet.Homes)
      requires SpanSet.HomesFit(home, SpanSet.SlotsFor(1, 2048))
      ensures Valid() && incoming == [] && failed == [] && dropped == 0 && log == []
      ensures this.limit == limit && seen.Contents() == [] && seen.capacity == 2048
    {
      this.limit, this.parse := limit, parse;
      seen := new SpanSet.SpanSet(2048, home);
      incoming, failed, dropped := [], [], 0;
      ids, log, spots := [], [], [];
    }

    /** Separates the messages that belong, with their numbers, from the rest, whose
        numbers go to `failed`. */
    method Parse(frame: Frame) returns (parsed: seq<Incoming>, ghost numbers: seq<U64>)
      requires Valid() && frame.batch.Some?
      modifies `failed
      ensures Valid()
      ensures numbers == NumbersOf(frame.pairs, |frame.batch.value|)
      ensures parsed == Kept(parse, frame, frame.batch.value, numbers)
      ensures failed == old(failed) + Said(frame.sender, Failed(parse, frame, frame.batch.value, numbers))
    {
      hide Expand, Filtered, SpanSet.Found, SpanSet.Holds, SpanSet.RingList;
      var bodies := frame.batch.value;
      var given: seq<U64> := seq(|bodies|, _ => 0);
      if |frame.pairs| >= 2 {
        given := GiveNumbers(frame.pairs, |bodies|);
      }
      numbers := given;
      assert numbers == NumbersOf(frame.pairs, |bodies|);
      parsed := [];
      assert bodies[..0] == [] && given[..0] == [];
      for i := 0 to |bodies|
        invariant parsed == Kept(parse, frame, bodies[..i], given[..i])
        invariant failed == old(failed) + Said(frame.sender, Failed(parse, frame, bodies[..i], given[..i]))
      {
        assert bodies[..i + 1][..i] == bodies[..i] && given[..i + 1][..i] == given[..i];
        if Belongs(parse, frame, bodies[i]) {
          parsed := parsed + [Incoming(parse(bodies[i]).value, given[i])];
        } else if given[i] != 0 {
          SaidMore(frame.sender, Failed(parse, frame, bodies[..i], given[..i]), given[i]);
          failed := failed + [(frame.sender, given[i])];
        }
      }
      assert bodies[..|bodies|] == bodies && given[..|bodies|] == given;
    }

    /** A batch split, its envelope's id among those seen. */
    method SplitBatch(frame: Frame, ghost list: seq<nat>)
      requires Offered(frame.id, list) && frame.batch.Some?
      modifies this, seen, seen.slots, seen.ring
      ensures Valid() && old(incoming) <= incoming && log == old(log) + incoming[|old(incoming)|..]
      ensures Splits(frame) <==>
        frame.messageType > MAX_META_TYPE && frame.batchParses && |frame.batch.value| <= MAX_BATCH_RECORDS
      ensures Splits(frame) && |old(incoming)| >= limit ==> frame.id !in seen.Contents()
      ensures !Splits(frame) ==>
        incoming == old(incoming) && failed == old(failed) && dropped == old(dropped) && seen.Contents() == old(seen.Contents())
      ensures Splits(frame) && |old(incoming)| >= limit ==>
        && incoming == old(incoming) && failed == old(failed) && dropped == old(dropped) + |frame.batch.value|
        && seen.Contents() == old(seen.Contents())[..|old(seen.Contents())| - 1]
      ensures Splits(frame) && |old(incoming)| < limit ==>
        var numbers := NumbersOf(frame.pairs, |frame.batch.value|);
        var (taken, now) := TakenIn(old(seen.Contents()), seen.capacity, Kept(parse, frame, frame.batch.value, numbers));
        && incoming == old(incoming) + taken && seen.Contents() == now && dropped == old(dropped)
        && failed == old(failed) + Said(frame.sender, Failed(parse, frame, frame.batch.value, numbers))
    {
      hide Kept, Failed, NumbersOf, TakenIn, Filtered, Said, SpanSet.Found, SpanSet.Holds, SpanSet.RingList;
      if !Splits(frame) {
        Keep(frame.id, list);
        return;
      }
      if |incoming| >= limit {
        Forget(frame.id, list);
        dropped := dropped + |frame.batch.value|;
        return;
      }
      Keep(frame.id, list);
      TakeBatch(frame);
    }

    method TakeBatch(frame: Frame)
      requires Valid() && frame.batch.Some?
      modifies this, seen, seen.slots, seen.ring
      ensures Valid() && old(incoming) <= incoming && log == old(log) + incoming[|old(incoming)|..]
      ensures var numbers := NumbersOf(frame.pairs, |frame.batch.value|);
              var (taken, now) := TakenIn(old(seen.Contents()), seen.capacity, Kept(parse, frame, frame.batch.value, numbers));
              && incoming == old(incoming) + taken && seen.Contents() == now && dropped == old(dropped)
              && failed == old(failed) + Said(frame.sender, Failed(parse, frame, frame.batch.value, numbers))
    {
      hide Kept, Failed, NumbersOf, TakenIn, Filtered, Said, SpanSet.Found, SpanSet.Holds, SpanSet.RingList;
      var parsed, numbers := Parse(frame);
      KeptIds(parse, frame, frame.batch.value, numbers);
      TakeIn(parsed);
    }

    /** A message by itself queued, or dropped by a full queue, and then not seen
        after all. */
    method QueueIncoming(message: Incoming, ghost list: seq<nat>)
      requires Offered(message.event.id, list) && message.number == 0
      modifies `incoming, `dropped, `ids, `log, `spots, seen, seen.slots
      ensures Valid() && old(incoming) <= incoming && log == old(log) + incoming[|old(incoming)|..]
      ensures |old(incoming)| >= limit ==> message.event.id !in seen.Contents()
      ensures |old(incoming)| < limit ==>
        incoming == old(incoming) + [message] && dropped == old(dropped) && seen.Contents() == old(seen.Contents())
      ensures |old(incoming)| >= limit ==>
        && incoming == old(incoming) && dropped == old(dropped) + 1
        && seen.Contents() == old(seen.Contents())[..|old(seen.Contents())| - 1]
    {
      hide Apart, Spotted, Remembers, SpanSet.Found, SpanSet.Holds, SpanSet.RingList;
      if |incoming| >= limit {
        Forget(message.event.id, list);
        dropped := dropped + 1;
        return;
      }
      TakeNew(list, seen.capacity, ids, message.event.id);
      SpottedMore(log, ids, spots, message);
      spots := spots + [|ids|];
      ids, log := ids + [message.event.id], log + [message];
      incoming := incoming + [message];
    }

    /** Takes a frame in. Dropped for a full queue, it does not count as seen. */
    method HandleMessage(frame: Frame)
      requires Valid()
      modifies this, seen, seen.slots, seen.ring
      ensures Valid() && old(incoming) <= incoming && log == old(log) + incoming[|old(incoming)|..]
      ensures frame.id == 0 || frame.id in old(seen.Contents()) ==>
        incoming == old(incoming) && failed == old(failed) && dropped == old(dropped) && seen.Contents() == old(seen.Contents())
      ensures frame.id != 0 && frame.id !in old(seen.Contents()) && frame.batch.None? && |old(incoming)| < limit ==>
        && incoming == old(incoming) + [Incoming(Event(frame.id, frame.messageType, frame.key, frame.plain), 0)]
        && dropped == old(dropped)
        && seen.Contents() == SpanSet.Inserted(old(seen.Contents()), frame.id, seen.capacity)
      ensures frame.id != 0 && frame.id !in old(seen.Contents()) && Splits(frame) && |old(incoming)| < limit ==>
        var numbers := NumbersOf(frame.pairs, |frame.batch.value|);
        var (taken, now) := TakenIn(SpanSet.Inserted(old(seen.Contents()), frame.id, seen.capacity), seen.capacity,
                                    Kept(parse, frame, frame.batch.value, numbers));
        && incoming == old(incoming) + taken && seen.Contents() == now && dropped == old(dropped)
        && failed == old(failed) + Said(frame.sender, Failed(parse, frame, frame.batch.value, numbers))
      ensures frame.id != 0 && frame.id !in old(seen.Contents()) && frame.batch.Some? && !Splits(frame) ==>
        && incoming == old(incoming) && failed == old(failed) && dropped == old(dropped)
        && seen.Contents() == SpanSet.Inserted(old(seen.Contents()), frame.id, seen.capacity)
      ensures frame.id != 0 && frame.id !in old(seen.Contents()) && |old(incoming)| >= limit &&
              (frame.batch.None? || Splits(frame)) ==>
        && incoming == old(incoming) && frame.id !in seen.Contents()
        && dropped == old(dropped) + if frame.batch.None? then 1 else |frame.batch.value|
    {
      hide Kept, Failed, TakenIn, NumbersOf, Filtered, Said, SpanSet.Found, SpanSet.Holds, SpanSet.RingList;
      if frame.id == 0 {
        return;
      }
      var isNew := seen.Insert(frame.id);
      if !isNew {
        return;
      }
      if frame.batch.Some? {
        SplitBatch(frame, old(seen.Contents()));
        return;
      }
      QueueIncoming(Incoming(Event(frame.id, frame.messageType, frame.key, frame.plain), 0), old(seen.Contents()));
    }

    method NextIncomingMessage() returns (message: Incoming)
      requires Valid() && incoming != []
      modifies `incoming
      ensures Valid() && message == old(incoming[0]) && incoming == old(incoming[1..])
    {
      message := incoming[0];
      incoming := incoming[1..];
    }

    /** A message taken, but for one without a number that was seen. */
    method TakeOne(message: Incoming)
      requires Valid() && message.event.id != 0
      modifies `incoming, `ids, `log, `spots, seen, seen.slots, seen.ring
      ensures Valid()
      ensures var seen' := old(seen.Contents());
              var take := message.number != 0 || message.event.id !in seen';
              && incoming == old(incoming) + (if take then [message] else [])
              && log == old(log) + (if take then [message] else [])
              && seen.Contents() == if message.number != 0 then seen' else SpanSet.Inserted(seen', message.event.id, seen.capacity)
    {
      hide Apart, Spotted, Remembers, SpanSet.Found, SpanSet.Holds, SpanSet.RingList;
      var isNew := true;
      ghost var before := seen.Contents();
      if message.number == 0 {
        isNew := seen.Insert(message.event.id);
      }
      if isNew {
        SpottedMore(log, ids, spots, message);
        if message.number == 0 {
          TakeNew(before, seen.capacity, ids, message.event.id);
          spots := spots + [|ids|];
          ids := ids + [message.event.id];
        }
        incoming, log := incoming + [message], log + [message];
      }
    }

    /** The messages taken in their order, but for those seen. */
    method TakeIn(messages: seq<Incoming>)
      requires Valid() && forall i :: 0 <= i < |messages| ==> messages[i].event.id != 0
      modifies `incoming, `ids, `log, `spots, seen, seen.slots, seen.ring
      ensures Valid() && old(incoming) <= incoming && log == old(log) + incoming[|old(incoming)|..]
      ensures var (taken, now) := TakenIn(old(seen.Contents()), seen.capacity, messages);
              incoming == old(incoming) + taken && seen.Contents() == now
    {
      hide Filtered, SpanSet.Found, SpanSet.Holds, SpanSet.RingList;
      ghost var list := seen.Contents();
      assert messages[..0] == [];
      for i := 0 to |messages|
        invariant Valid() && old(incoming) <= incoming && log == old(log) + incoming[|old(incoming)|..]
        invariant var (taken, now) := TakenIn(list, seen.capacity, messages[..i]);
                  incoming == old(incoming) + taken && seen.Contents() == now
      {
        assert messages[..i + 1][..i] == messages[..i];
        TakeOne(messages[i]);
      }
      assert messages[..|messages|] == messages;
    }
  }

  function Said(sender: nat, numbers: seq<U64>): seq<(nat, U64)> {
    seq(|numbers|, i requires 0 <= i < |numbers| => (sender, numbers[i]))
  }

  lemma SaidMore(sender: nat, numbers: seq<U64>, number: U64)
    ensures Said(sender, numbers + [number]) == Said(sender, numbers) + [(sender, number)]
  {
  }

  lemma {:induction false} KeptIds(parse: Parser, frame: Frame, bodies: seq<Body>, numbers: seq<U64>)
    requires |numbers| == |bodies|
    ensures forall i :: 0 <= i < |Kept(parse, frame, bodies, numbers)| ==> Kept(parse, frame, bodies, numbers)[i].event.id != 0
  {
    if bodies != [] {
      KeptIds(parse, frame, bodies[..|bodies| - 1], numbers[..|bodies| - 1]);
    }
  }

  // What a split takes and fails, message by message

  /** A message of a batch: an event under an id, plain, of the batch's type and key. */
  ghost predicate IsPart(parse: Parser, frame: Frame, body: Body, event: Event) {
    && parse(body) == Some(event) && event.id != 0 && event.plain
    && event.messageType == frame.messageType && event.key == frame.key
  }

  lemma {:induction false} KeptAre(parse: Parser, frame: Frame, bodies: seq<Body>, numbers: seq<U64>, m: Incoming)
    requires |numbers| == |bodies|
    ensures m in Kept(parse, frame, bodies, numbers) <==>
      exists i :: 0 <= i < |bodies| && IsPart(parse, frame, bodies[i], m.event) && m.number == numbers[i]
  {
    if bodies != [] {
      var last := |bodies| - 1;
      KeptAre(parse, frame, bodies[..last], numbers[..last], m);
      if m in Kept(parse, frame, bodies[..last], numbers[..last]) {
        var i :| 0 <= i < last && IsPart(parse, frame, bodies[..last][i], m.event) && m.number == numbers[..last][i];
        assert IsPart(parse, frame, bodies[i], m.event) && m.number == numbers[i];
      } else if m in Kept(parse, frame, bodies, numbers) {
        assert IsPart(parse, frame, bodies[last], m.event) && m.number == numbers[last];
      }
      if i :| 0 <= i < |bodies| && IsPart(parse, frame, bodies[i], m.event) && m.number == numbers[i] {
        if i < last {
          assert IsPart(parse, frame, bodies[..last][i], m.event) && m.number == numbers[..last][i];
        }
      }
    }
  }

  /** The numbers failed are those of bodies that are no message of the batch. */
  lemma {:induction false} FailedAre(parse: Parser, frame: Frame, bodies: seq<Body>, numbers: seq<U64>, n: U64)
    requires |numbers| == |bodies|
    ensures n in Failed(parse, frame, bodies, numbers) <==>
      n != 0 && exists i :: 0 <= i < |bodies| && numbers[i] == n && (forall event :: !IsPart(parse, frame, bodies[i], event))
  {
    if bodies != [] {
      var last := |bodies| - 1;
      FailedAre(parse, frame, bodies[..last], numbers[..last], n);
      if Belongs(parse, frame, bodies[last]) {
        assert IsPart(parse, frame, bodies[last], parse(bodies[last]).value);
      }
      if n in Failed(parse, frame, bodies[..last], numbers[..last]) {
        var i :| 0 <= i < last && numbers[..last][i] == n && (forall event :: !IsPart(parse, frame, bodies[..last][i], event));
        assert numbers[i] == n && bodies[i] == bodies[..last][i];
      } else if n in Failed(parse, frame, bodies, numbers) {
        assert numbers[last] == n && forall event :: !IsPart(parse, frame, bodies[last], event);
      }
      if i :| n != 0 && 0 <= i < |bodies| && numbers[i] == n && (forall event :: !IsPart(parse, frame, bodies[i], event)) {
        if i < last {
          assert numbers[..last][i] == n && bodies[..last][i] == bodies[i];
        }
      }
    }
  }

  lemma {:induction false} KeptPrefix(parse: Parser, frame: Frame, bodies: seq<Body>, numbers: seq<U64>, i: nat)
    requires |numbers| == |bodies| && i <= |bodies|
    ensures Kept(parse, frame, bodies[..i], numbers[..i]) <= Kept(parse, frame, bodies, numbers)
  {
    var last := |bodies| - 1;
    if i <= last {
      KeptPrefix(parse, frame, bodies[..last], numbers[..last], i);
      assert bodies[..last][..i] == bodies[..i] && numbers[..last][..i] == numbers[..i];
    } else {
      assert bodies[..i] == bodies && numbers[..i] == numbers;
    }
  }

  /** No message before the i-th of a batch is without a number and has this id. */
  ghost predicate FirstOfId(parse: Parser, frame: Frame, bodies: seq<Body>, numbers: seq<U64>, i: nat, id: nat)
    requires i <= |bodies| == |numbers|
  {
    forall j, other :: 0 <= j < i && IsPart(parse, frame, bodies[j], other) && numbers[j] == 0 ==> other.id != id
  }

  /** Each message of a batch with a number is queued; each other is, unless one of its id
      was seen or came before it in the batch. */
  lemma SplitTakes(parse: Parser, frame: Frame, bodies: seq<Body>, numbers: seq<U64>, seen: seq<nat>, capacity: nat, i: nat,
                   event: Event)
    requires |numbers| == |bodies| && 0 < capacity && i < |bodies| && IsPart(parse, frame, bodies[i], event)
    requires numbers[i] != 0 || (event.id !in seen && FirstOfId(parse, frame, bodies, numbers, i, event.id))
    ensures Incoming(event, numbers[i]) in TakenIn(seen, capacity, Kept(parse, frame, bodies, numbers)).0
  {
    var kept, before := Kept(parse, frame, bodies, numbers), Kept(parse, frame, bodies[..i], numbers[..i]);
    KeptPrefix(parse, frame, bodies, numbers, i);
    KeptPrefix(parse, frame, bodies, numbers, i + 1);
    assert Kept(parse, frame, bodies[..i + 1], numbers[..i + 1]) == before + [Incoming(event, numbers[i])] by {
      assert bodies[..i + 1][..i] == bodies[..i] && numbers[..i + 1][..i] == numbers[..i];
    }
    hide Kept, IsPart, TakenIn;
    assert kept[|before|] == Incoming(event, numbers[i]);
    forall j | 0 <= j < |before| ensures numbers[i] == 0 && kept[j].number == 0 ==> kept[j].event.id != event.id {
      assert kept[j] == before[j];
      EarlierIds(parse, frame, bodies, numbers, i, before[j]);
    }
    TakesIn(seen, capacity, kept, |before|);
  }

  lemma EarlierIds(parse: Parser, frame: Frame, bodies: seq<Body>, numbers: seq<U64>, i: nat, m: Incoming)
    requires i < |bodies| == |numbers| && m in Kept(parse, frame, bodies[..i], numbers[..i])
    ensures forall id :: FirstOfId(parse, frame, bodies, numbers, i, id) && m.number == 0 ==> m.event.id != id
  {
    hide Kept, IsPart;
    KeptAre(parse, frame, bodies[..i], numbers[..i], m);
    var j :| 0 <= j < i && IsPart(parse, frame, bodies[..i][j], m.event) && m.number == numbers[..i][j];
    assert IsPart(parse, frame, bodies[j], m.event) && m.number == numbers[j];
  }

  /** And nothing else is. */
  lemma SplitTakesOnly(parse: Parser, frame: Frame, bodies: seq<Body>, numbers: seq<U64>, seen: seq<nat>, capacity: nat, m: Incoming)
    requires |numbers| == |bodies| && 0 < capacity && m in TakenIn(seen, capacity, Kept(parse, frame, bodies, numbers)).0
    ensures exists i :: 0 <= i < |bodies| && IsPart(parse, frame, bodies[i], m.event) && m.number == numbers[i]
  {
    hide IsPart, Kept;
    TakesOnly(seen, capacity, Kept(parse, frame, bodies, numbers));
    KeptAre(parse, frame, bodies, numbers, m);
  }

  // Packing, then splitting

  /** A record of a group: its body parses to a plain event of the group, under its id. */
  ghost predicate RecordOk(parse: Parser, group: BatchIndex.Group, record: Record) {
    record.id != 0 && parse(record.body) == Some(Event(record.id, group.messageType, group.key, true))
  }

  /** The frame an envelope of a group arrives as. */
  function Arrives(id: nat, sender: nat, group: BatchIndex.Group, bodies: seq<Body>, pairs: seq<U64>): Frame {
    Frame(id, sender, group.messageType, group.key, Some(bodies), true, pairs, false)
  }

  /** The messages of some records, each with its number. */
  function Sent(group: BatchIndex.Group, records: seq<Record>, numbers: seq<U64>): seq<Incoming>
    requires |numbers| == |records|
  {
    seq(|records|, i requires 0 <= i < |records| =>
          Incoming(Event(records[i].id, group.messageType, group.key, true), numbers[i]))
  }

  /** Every message packed belongs: none is failed, and each comes with its number. */
  lemma {:induction false} AllBelong(parse: Parser, frame: Frame, group: BatchIndex.Group, records: seq<Record>,
                                     numbers: seq<U64>)
    requires |numbers| == |records| && frame.messageType == group.messageType && frame.key == group.key
    requires forall i :: 0 <= i < |records| ==> RecordOk(parse, group, records[i])
    ensures Kept(parse, frame, BatchFrames.Bodies(records), numbers) == Sent(group, records, numbers)
    ensures Failed(parse, frame, BatchFrames.Bodies(records), numbers) == []
  {
    if records != [] {
      var last := |records| - 1;
      AllBelong(parse, frame, group, records[..last], numbers[..last]);
      assert BatchFrames.Bodies(records)[..last] == BatchFrames.Bodies(records[..last]);
      assert RecordOk(parse, group, records[last]);
    }
  }

  /** Confirmed messages are taken all, whatever was seen. */
  lemma {:induction false} AllTaken(seen: seq<nat>, capacity: nat, messages: seq<Incoming>)
    requires 0 < capacity && forall i :: 0 <= i < |messages| ==> messages[i].number != 0
    ensures TakenIn(seen, capacity, messages) == (messages, seen)
  {
    if messages != [] {
      AllTaken(seen, capacity, messages[..|messages| - 1]);
      assert messages == messages[..|messages| - 1] + [messages[|messages| - 1]];
    }
  }

  /** The walk over the pairs gives back the numbers packed. */
  lemma NumbersBack(numbers: seq<U64>)
    requires NonZero(numbers) && numbers != []
    ensures |Encode(numbers)| >= 2 && NumbersOf(Encode(numbers), |numbers|) == numbers
  {
    RoundTrip(numbers);
    assert |Encode(numbers)| > 0;
  }

  /** A confirmed envelope, as the sender makes it, split by a receiver with room:
      every message handed out, in order, each with the number it was given. */
  lemma PackThenSplit(parse: Parser, header: nat, maxBytes: nat, out: BatchFrames.Handed, rest: seq<Record>,
                      numbers: seq<U64>, group: BatchIndex.Group, id: nat, sender: nat, seen: seq<nat>, capacity: nat)
    requires |numbers| == |rest| && NonZero(numbers) && 0 < capacity
    requires out.Envelope? && BatchFrames.HandedOk(header, maxBytes, true, out, rest, numbers)
    requires forall i :: 0 <= i < |rest| ==> RecordOk(parse, group, rest[i])
    ensures var n, frame := |out.ids|, Arrives(id, sender, group, out.bodies, out.pairs);
            var given := NumbersOf(out.pairs, n);
            && n <= |rest| && |out.bodies| == n && given == numbers[..n]
            && Failed(parse, frame, out.bodies, given) == []
            && TakenIn(seen, capacity, Kept(parse, frame, out.bodies, given))
               == (Sent(group, rest[..n], numbers[..n]), seen)
  {
    hide BatchFrames.EnvelopeSize, BatchFrames.CutToOne, BatchFrames.CutAsNeeded, Encode, NumbersOf, Kept, Failed, TakenIn;
    var n, frame := |out.ids|, Arrives(id, sender, group, out.bodies, out.pairs);
    NumbersBack(numbers[..n]);
    AllBelong(parse, frame, group, rest[..n], numbers[..n]);
    AllTaken(seen, capacity, Sent(group, rest[..n], numbers[..n]));
  }

  /** And one without numbers, of messages under ids of their own that were not seen. */
  lemma PackThenSplitPlain(parse: Parser, header: nat, maxBytes: nat, out: BatchFrames.Handed, rest: seq<Record>,
                           numbers: seq<U64>, group: BatchIndex.Group, id: nat, sender: nat, seen: seq<nat>, capacity: nat)
    requires |numbers| == |rest| && 0 < capacity
    requires out.Envelope? && BatchFrames.HandedOk(header, maxBytes, false, out, rest, numbers)
    requires forall i :: 0 <= i < |rest| ==> RecordOk(parse, group, rest[i]) && rest[i].id !in seen
    requires forall i, j :: 0 <= i < j < |rest| ==> rest[i].id != rest[j].id
    ensures var n, frame := |out.ids|, Arrives(id, sender, group, out.bodies, out.pairs);
            var given := NumbersOf(out.pairs, n);
            && n <= |rest| && |out.bodies| == n && (forall i :: 0 <= i < n ==> given[i] == 0)
            && Failed(parse, frame, out.bodies, given) == []
            && TakenIn(seen, capacity, Kept(parse, frame, out.bodies, given)).0 == Sent(group, rest[..n], given)
  {
    hide BatchFrames.EnvelopeSize, BatchFrames.CutToOne, BatchFrames.CutAsNeeded, Kept, Failed, TakenIn;
    var n, frame := |out.ids|, Arrives(id, sender, group, out.bodies, out.pairs);
    var given := NumbersOf(out.pairs, n);
    AllBelong(parse, frame, group, rest[..n], given);
    AllNew(seen, capacity, Sent(group, rest[..n], given));
  }

  /** An envelope a client's batching makes passes the receiver's checks of its
      type and of its number of messages. */
  lemma EnvelopePasses(frame: Batching.Framed, id: nat, sender: nat)
    requires Batching.FrameOk(frame) && frame.delivery.Some? && frame.out.Envelope?
    requires |frame.out.bodies| == |frame.out.ids|
    ensures Splits(Arrives(id, sender, frame.group, frame.out.bodies, frame.out.pairs))
  {
  }
}
