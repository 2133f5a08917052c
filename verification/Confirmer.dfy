/** Confirmed sends: the operations of a producer's side, on the structures of
    `Confirming`. */
module Confirmer {
  import opened Common
  import opened Flags
  import opened NumberPairs
  import opened Confirming
  import opened ConfirmingBooks
  import opened ConfirmingSends
  import opened ConfirmingRuns
  import opened ConfirmingEnds
  import opened ConfirmingTimes
  import opened ConfirmingHeard
  import opened ConfirmedLedger
  import opened RetryTimes

  /** Makes the batch of a frame: `numbers` is left empty exactly for messages numbered
      one after the other. */
  method MakeBatch(records: seq<Record>, terms: Terms, id: Id) returns (b: Batch)
    requires records != []
    ensures BatchOf(b, records)
    ensures MadeBy(b, id, terms)
  {
    var count, first := |records|, records[0].number;
    var consecutive, followed: set<nat> := true, {};
    for index := 0 to count
      invariant consecutive <==> forall i :: 0 <= i < index ==> records[i].number == first + i
      invariant forall i: nat :: i in followed <==> i < index && records[i].followed
    {
      consecutive := consecutive && records[index].number == first + index;
      if records[index].followed {
        followed := followed + {index};
      }
    }
    var numbers := if consecutive then [] else seq(count, i requires 0 <= i < count => records[i].number);
    b := Batch(count, first, numbers, followed, seq(count, _ => false), count, [], terms.goesBy(id),
               false, terms.retryAfter, NEVER, terms.backoff, terms.deadline, NEVER);
  }

  /** A batch whose frame is written: it goes again retry_after later, unless an
      earlier time is set. */
  function WrittenAt(b: Batch, now: Time): Batch {
    var retry := now + b.retryAfter;
    b.(written := true, retryAt := if b.retryAt < retry then b.retryAt else retry)
  }

  /** A batch nobody took, at `now`: back-offs are 100, 200, 400, 800, then 1000 ms. */
  function NotTakenAt(b: Batch, now: Time): Batch {
    var backoff := if b.backoff == 0 then 100 else if 1000 < 2 * b.backoff then 1000 else 2 * b.backoff;
    b.(backoff := backoff, written := true, retryAt := now + backoff)
  }

  class Confirmer {
    const works: nat -> bool        // whether each frame can be made, or read back, in turn
    const goesBy: Id -> Option<nat> // the connection an envelope goes by at once

    var lastNumber: nat
    var runs: Runs
    var byId: Batches
    var byDue: set<(Time, Id)>
    var timer: Timer
    var clock: Time
    var unconfirmed: int
    var ends: seq<(nat, bool)>
    var sentAgain: nat
    var usedIds: set<Id>  // every envelope id drawn so far
    var tried: nat        // the frames made or read back so far

    ghost var log: Log
    ghost var marks: set<nat>  // the last number given, after each operation

    ghost function Kept(): Books
      reads `lastNumber, `byId, `unconfirmed, `ends, `usedIds, `marks, `log
    {
      Books(lastNumber, byId, unconfirmed, ends, usedIds, marks, log)
    }

    /** Message `index` of a batch resolved, unless it was. */
    method Resolved(id: Id, index: nat, outcome: Outcome) returns (newly: nat)
      requires BooksOk(Kept())
      requires id in byId && index < |byId[id].resolved|
      modifies `byId, `unconfirmed, `ends, `log
      ensures BooksOk(Kept())
      ensures newly == if old(byId[id].resolved[index]) then 0 else 1
      ensures Kept() == ResolveAt(old(Kept()), id, index, outcome)
    {
      hide BooksOk;
      ResolveAtOk(Kept(), id, index, outcome);
      ghost var k' := ResolveAt(Kept(), id, index, outcome);
      var b := byId[id];
      newly := 0;
      if !b.resolved[index] {
        newly := 1;
        var number := b.Number(index);
        byId := byId[id := b.(resolved := b.resolved[index := true], unresolved := b.unresolved - 1)];
        unconfirmed := unconfirmed - 1;
        log := log.(places := log.places - {number}, ended := log.ended[number := outcome]);
        if index in b.followed {
          ends := ends + [(number, outcome.Processed?)];
          log := log.(told := log.told[number := outcome.Processed?]);
        }
      }
      assert Kept() == k';
    }

    /** The messages of [begin, end) resolved, those that were not. */
    method ResolveMessages(id: Id, begin: nat, end: nat, outcome: Outcome) returns (newly: nat)
      requires BooksOk(Kept())
      requires id in byId && begin <= end <= |byId[id].resolved|
      modifies `byId, `unconfirmed, `ends, `log
      ensures BooksOk(Kept())
      ensures Kept() == ResolveRange(old(Kept()), id, begin, end, outcome)
      ensures newly == Clear(old(byId[id].resolved)[begin..end])
    {
      hide BooksOk, ResolveAt;
      ghost var k := Kept();
      newly := 0;
      var index := begin;
      while index < end
        invariant begin <= index <= end
        invariant BooksOk(Kept()) && Kept() == ResolveRange(k, id, begin, index, outcome)
        invariant newly == Clear(k.byId[id].resolved[begin..index])
      {
        RangeNext(k, id, begin, index, outcome);
        var one := Resolved(id, index, outcome);
        newly := newly + one;
        index := index + 1;
      }
    }

    /** The same result by one update of the flags and of each counter, for processed
        messages without followers. */
    method ResolveUnfollowed(id: Id, begin: nat, end: nat) returns (newly: nat)
      requires BooksOk(Kept())
      requires id in byId && begin <= end <= |byId[id].resolved| && byId[id].followed == {}
      modifies `byId, `unconfirmed, `log
      ensures BooksOk(Kept())
      ensures Kept() == ResolveRange(old(Kept()), id, begin, end, Processed)
      ensures newly == Clear(old(byId[id].resolved)[begin..end])
    {
      hide BooksOk, OpenNumbers, EndAll, ResolveAt;
      ghost var k := Kept();
      RangeForm(k, id, begin, end, Processed);
      var b := byId[id];
      newly := Clear(b.resolved[begin..end]);
      byId := byId[id := b.(resolved := Mark(b.resolved, begin, end), unresolved := b.unresolved - newly)];
      unconfirmed := unconfirmed - newly;
      ghost var gone := OpenNumbers(b, begin, end);
      log := log.(places := log.places - gone, ended := EndAll(log.ended, gone, Processed));
      assert Kept() == ResolveRange(k, id, begin, end, Processed);
    }

    ghost predicate RunsOk(stale: set<Id>)
      reads `runs, `byId, `log
    {
      Indexed(runs, byId, log.places, log.ended, stale)
    }

    /** The runs a batch registered, erased. */
    method EraseRuns(id: Id)
      requires id in byId && KeysListed(runs, byId)
      modifies `runs
      ensures runs == WithoutBatch(old(runs), id)
    {
      var keys := byId[id].runKeys;
      ghost var was := runs;
      var at := 0;
      while at < |keys|
        invariant at <= |keys| && Erased(was, runs, keys[..at], id)
      {
        var key := keys[at];
        assert keys[..at + 1] == keys[..at] + [key];
        if key in runs && runs[key].batch == id {
          runs := runs - {key};
        }
        at := at + 1;
      }
      assert keys[..at] == keys;
      ErasedAll(was, runs, byId, id);
    }

    /** The runs of consecutive numbers among a batch's unresolved messages,
        registered where none of the batch's was; their keys returned. */
    method RegisterRuns(id: Id) returns (keys: seq<nat>)
      requires id in byId && BatchOk(byId[id]) && Placed(byId, log.places) && log.places.Keys !! log.ended.Keys
      requires Rebuilding(runs, byId, log.places, log.ended, id, 0)
      requires KeysSoFar(runs, byId, id, [])
      modifies `runs
      ensures Rebuilding(runs, byId, log.places, log.ended, id, byId[id].count)
      ensures KeysSoFar(runs, byId, id, keys)
      ensures byId[id].unresolved == 0 ==> runs == old(runs)
    {
      hide Rebuilding, Clear, Placed, KeysSoFar;
      var b := byId[id];
      ClearNone(b.resolved);
      ClearAll(b.resolved);
      keys := [];
      if b.unresolved == 0 {
        SkipResolved(runs, byId, log.places, log.ended, id, 0, b.count);
      } else if b.unresolved == b.count && b.numbers == [] {
        AddRun(runs, byId, log.places, log.ended, id, 0, b.count);
        AddKey(runs, byId, id, keys, b.first, Run(id, 0, b.count, b.count));
        runs := runs[b.first := Run(id, 0, b.count, b.count)];
        keys := keys + [b.first];
      } else {
        var index := 0;
        while index < b.count
          modifies `runs
          invariant index <= b.count
          invariant Rebuilding(runs, byId, log.places, log.ended, id, index)
          invariant KeysSoFar(runs, byId, id, keys)
        {
          if b.resolved[index] {
            SkipResolved(runs, byId, log.places, log.ended, id, index, index + 1);
            index := index + 1;
          } else {
            var first := b.Number(index);
            var length := 1;
            while index + length < b.count && !b.resolved[index + length] && b.Number(index + length) == first + length
              invariant index + length <= b.count
              invariant forall i :: index <= i < index + length ==> !b.resolved[i] && b.Number(i) == first + (i - index)
            {
              length := length + 1;
            }
            AddRun(runs, byId, log.places, log.ended, id, index, length);
            AddKey(runs, byId, id, keys, first, Run(id, index, length, length));
            runs := runs[first := Run(id, index, length, length)];
            keys := keys + [first];
            index := index + length;
          }
        }
      }
    }

    /** A batch's runs, registered anew. */
    method RebuildRuns(id: Id)
      requires BooksOk(Kept()) && RunsOk({id}) && id in byId
      modifies `runs, `byId
      ensures BooksOk(Kept()) && RunsOk({})
      ensures id in byId && byId == old(byId)[id := old(byId[id]).(runKeys := byId[id].runKeys)]
      ensures old(byId[id].unresolved) == 0 ==> runs == WithoutBatch(old(runs), id)
    {
      hide BooksOk, Rebuilding, Placed, KeysSoFar, BatchOk;
      StartRebuilding(runs, byId, log.places, log.ended, id);
      StartKeys(runs, byId, id);
      BooksParts(Kept(), id);
      EraseRuns(id);
      var keys := RegisterRuns(id);
      assert byId[id].count == |byId[id].resolved| by {
        CountIs(byId[id]);
      }
      Rebuilt(runs, byId, log.places, log.ended, id, keys);
      SameBooks(Kept(), id, byId[id].(runKeys := keys));
      byId := byId[id := byId[id].(runKeys := keys)];
    }

    /** The batches are indexed by when they are due, and the timer runs to the
        earliest or stands still with none; but for the batches `stale`, whose
        place among those due is about to be set. */
    ghost predicate TimesOk(stale: set<Id>)
      reads `byId, `byDue, `timer, `clock
    {
      && DueIndexed(byId, byDue)
      && DueCurrent(byId, stale)
      && Armed(byDue, timer)
      && clock < NEVER
    }

    method ReadClock() returns (now: Time)
      requires clock < NEVER
      modifies `clock
      ensures old(clock) <= now == clock < NEVER
    {
      now :| clock <= now < NEVER;
      clock := now;
    }

    /** The timer moved to the earliest batch due, if it runs later than that. */
    method ArmTimer()
      requires !timer.Firing?
      requires forall e :: e in byDue && timer.At? ==> timer.time <= e.0 || Earliest(byDue, e)
      modifies `timer
      ensures byDue != {} ==> Armed(byDue, timer)
      ensures byDue == {} ==> timer == old(timer)
      ensures !timer.Firing?
    {
      if byDue != {} {
        ghost var first := EarliestExists(byDue);
        assert Earliest(byDue, first);
        var earliest :| earliest in byDue && forall e :: e in byDue ==> earliest.0 <= e.0;
        if timer.Later(earliest.0) {
          timer := At(earliest.0);
        }
      }
    }

    /** Turns the timer off if `byDue` is empty. */
    method DisarmWhenIdle()
      modifies `timer
      ensures timer == if byDue == {} && old(timer).At? then Idle else old(timer)
    {
      if byDue == {} && timer.At? {
        timer := Idle;
      }
    }

    /** Brings a batch's due time, its entry in `byDue` and the timer up to date. */
    method ConfirmingDue(id: Id, ghost stale: set<Id>)
      requires BooksOk(Kept()) && RunsOk(stale) && TimesOk({id}) && id in byId
      modifies `byId, `byDue, `timer
      ensures BooksOk(Kept()) && RunsOk(stale) && TimesOk({})
      ensures byId == old(byId)[id := old(byId[id]).(due := DueOf(old(byId[id])))]
      ensures timer.Firing? == old(timer.Firing?)
    {
      hide BooksOk, Indexed;
      var b := byId[id];
      var due := DueOf(b);
      var c := b.(due := due);
      SameBooks(Kept(), id, c);
      SameIndexed(runs, byId, log.places, log.ended, stale, id, c);
      ChangeDue(byId, byDue, id, c);
      if due == b.due {
        assert byId[id := c] == byId;
        return;
      }
      byDue := byDue - {(b.due, id)};
      byId := byId[id := c];
      if due != NEVER {
        byDue := byDue + {(due, id)};
        if timer.Later(due) {
          ArmTimer();
        }
      } else {
        DisarmWhenIdle();
      }
    }

    /** Drops a batch from every structure once all its flags are set. */
    method ForgetResolved(id: Id)
      requires BooksOk(Kept()) && TimesOk({}) && id in byId
      requires if byId[id].unresolved == 0 then RunsOk({id}) else RunsOk({})
      modifies `byId, `byDue, `timer, `runs
      ensures BooksOk(Kept()) && TimesOk({}) && RunsOk({})
      ensures byId == if old(byId[id]).unresolved == 0 then old(byId) - {id} else old(byId)
      ensures timer.Firing? == old(timer.Firing?)
    {
      hide BooksOk, Indexed, Placed, BatchOk;
      if byId[id].unresolved != 0 {
        return;
      }
      BooksParts(Kept(), id);
      ForgetBooks(Kept(), id);
      ForgetIndexed(runs, byId, log.places, log.ended, id);
      ForgetDue(byId, byDue, id);
      IndexedKeys(runs, byId, log.places, log.ended, {id});
      EraseRuns(id);
      if byId[id].due != NEVER {
        byDue := byDue - {(byId[id].due, id)};
        DisarmWhenIdle();
      }
      byId := byId - {id};
    }

    /** Gives numbers to the messages that have none, in order. */
    method Numbered(records: seq<Record>, ghost terms: Terms) returns (numbered: seq<Record>)
      requires BooksOk(Kept()) && RecordsOk(Kept(), records) && MovingIn(log.moving, records)
      modifies `lastNumber, `log
      ensures BooksOk(Kept()) && Ready(Kept(), numbered) && MovingIn(log.moving, numbered)
      ensures Sending(old(Kept()), Kept(), terms)
      ensures log.places == old(log.places) && log.ended == old(log.ended)
      ensures |numbered| == |records| && lastNumber == old(lastNumber) + Zeros(records)
      ensures forall i :: 0 <= i < |records| ==>
                            numbered[i].followed == records[i].followed &&
                            (records[i].number != 0 ==> numbered[i] == records[i])
    {
      hide BooksOk, RecordsOk, MovingIn, GiveNumber, Sending, Zeros;
      numbered := records;
      ghost var k := Kept();
      SendingNone(k, terms);
      ZerosNone([]);
      var index := 0;
      while index < |numbered|
        invariant index <= |numbered| == |records|
        invariant BooksOk(Kept()) && RecordsOk(Kept(), numbered) && MovingIn(log.moving, numbered)
        invariant Sending(k, Kept(), terms)
        invariant log.places == old(log.places) && log.ended == old(log.ended)
        invariant forall i :: 0 <= i < |records| ==>
                                numbered[i].followed == records[i].followed &&
                                (records[i].number != 0 ==> numbered[i] == records[i])
        invariant forall i :: 0 <= i < index ==> numbered[i].number != 0
        invariant forall i :: index <= i < |records| ==> numbered[i] == records[i]
        invariant lastNumber == k.last + Zeros(records[..index])
      {
        ZerosNext(records, index);
        if numbered[index].number == 0 {
          NextNumber(Kept(), numbered, index, terms);
          MovingNumbered(log.moving, numbered, index, lastNumber + 1);
          ghost var k' := GiveNumber(Kept(), numbered[index].followed);
          SendingTrans(k, Kept(), k', terms);
          lastNumber := lastNumber + 1;
          log := k'.log;
          numbered := numbered[index := numbered[index].(number := lastNumber)];
        }
        index := index + 1;
      }
      assert records[..index] == records;
    }

    /** A fresh envelope id. */
    method DrawId() returns (id: Id)
      ensures id !in usedIds
    {
      ghost var some := FreshIdExists(usedIds);
      id :| id !in usedIds;
    }

    /** Holds the messages of a frame in a new batch, indexed by its runs and due time. */
    method WaitForConfirmation(records: seq<Record>, terms: Terms)
      requires BooksOk(Kept()) && RunsOk({}) && TimesOk({})
      requires Ready(Kept(), records) && records != []
      modifies `byId, `unconfirmed, `usedIds, `runs, `byDue, `timer, `log
      ensures BooksOk(Kept()) && RunsOk({}) && TimesOk({})
      ensures Sending(old(Kept()), Kept(), terms)
      ensures log == old(log).(places := log.places, moving := old(log.moving) - NumbersOf(records, |records|))
      ensures timer.Firing? == old(timer.Firing?)
    {
      hide BooksOk, Indexed, BatchOf, Ready, PlacedIn, NumbersOf, PlaceAll, DueIndexed, DueCurrent, Armed, Sending;
      ghost var k := Kept();
      var id := DrawId();
      var b := MakeBatch(records, terms, id);
      WaitOk(k, id, b, records);
      WaitParts(k, id, b, records);
      FreshTimes(b, records);
      WaitIndexed(runs, byId, log.places, PlaceAll(log.places, id, records, |records|), log.ended, id, b, records);
      WaitDue(byId, byDue, id, b);
      usedIds := usedIds + {id};
      byId := byId[id := b];
      unconfirmed := unconfirmed + |records|;
      log := log.(places := PlaceAll(log.places, id, records, |records|), moving := log.moving - NumbersOf(records, |records|));
      assert Kept() == Wait(k, id, b, records);
      ghost var made := byId;
      RebuildRuns(id);
      KeysDue(made, byDue, {id}, id, byId[id].runKeys);
      ConfirmingDue(id, {});
      WaitSending(k, id, b, byId[id], records, Kept(), terms);
    }

    /** Messages no frame could hold, given up on: none is sent unnumbered. */
    method CannotConfirm(records: seq<Record>, ghost terms: Terms)
      requires BooksOk(Kept()) && RunsOk({}) && Ready(Kept(), records)
      modifies `ends, `log
      ensures BooksOk(Kept()) && RunsOk({})
      ensures Sending(old(Kept()), Kept(), terms)
      ensures log.moving == old(log.moving) - NumbersOf(records, |records|) && log.follows == old(log.follows)
    {
      hide BooksOk, Indexed, Ready, Sending, NumbersOf;
      ghost var k := Kept();
      SendingNone(k, terms);
      NoNumbers(log.moving, records);
      assert records[0..] == records;
      var index := 0;
      while index < |records|
        invariant index <= |records|
        invariant BooksOk(Kept()) && RunsOk({}) && Ready(Kept(), records[index..])
        invariant Sending(k, Kept(), terms)
        invariant log.moving == k.log.moving - NumbersOf(records, index) && log.follows == k.log.follows
      {
        var record := records[index];
        assert records[index..] == [record] + records[index + 1..];
        ReadyOne(Kept(), records[index..], 0);
        ReadyNext(Kept(), record, Unsendable, records[index + 1..]);
        EndMovingOk(Kept(), record, Unsendable);
        CannotSending(Kept(), record, terms);
        SendingTrans(k, Kept(), EndMoving(Kept(), record, Unsendable), terms);
        EndedOnes(k.log.moving, records, index);
        NotEndedYet(Kept(), record);
        SendingIndexed(runs, byId, log.places, log.ended, log.ended[record.number := Unsendable]);
        ghost var k' := EndMoving(Kept(), record, Unsendable);
        if record.followed {
          ends := ends + [(record.number, false)];
        }
        log := k'.log;
        assert Kept() == k';
        index := index + 1;
      }
    }

    /** The first of some messages sent in a frame, as many as it has; those of a frame
        that does not work end. */
    method SendFrame(records: seq<Record>, terms: Terms) returns (rest: seq<Record>)
      requires BooksOk(Kept()) && RunsOk({}) && TimesOk({}) && records != []
      requires RecordsOk(Kept(), records) && MovingIn(log.moving, records)
      modifies `lastNumber, `byId, `unconfirmed, `ends, `usedIds, `runs, `byDue, `timer, `log
      ensures BooksOk(Kept()) && RunsOk({}) && TimesOk({}) && |rest| < |records|
      ensures RecordsOk(Kept(), rest) && MovingIn(log.moving, rest)
      ensures Sending(old(Kept()), Kept(), terms)
      ensures Zeros(rest) == 0 && lastNumber == old(lastNumber) + Zeros(records)
      ensures timer.Firing? == old(timer.Firing?)
      ensures works(tried) ==> log.ended == old(log.ended)
    {
      hide BooksOk, Ready, RecordsOk, MovingIn, NumbersOf, Sending, Zeros, Indexed, Confirmer.TimesOk;
      ghost var before := Kept();
      var numbered := Numbered(records, terms);
      var count :| 1 <= count <= |numbered|;
      ghost var ready := Kept();
      ReadyPart(ready, numbered, count);
      MovingDropped(log.moving, numbered, count);
      if !works(tried) {
        CannotConfirm(numbered[..count], terms);
      } else {
        WaitForConfirmation(numbered[..count], terms);
      }
      SendingTrans(before, ready, Kept(), terms);
      ReadyLeft(ready, Kept(), numbered, count);
      rest := numbered[count..];
      ReadyIsRecords(Kept(), rest);
      ReadyZeros(Kept(), rest);
    }

    /** A batch's messages sent, in one frame or, cut by its size, in several: each
        cut is somewhere after the first message. The messages of a frame that
        does not work end, and no others. */
    method SendBatch(records: seq<Record>, terms: Terms)
      requires BooksOk(Kept()) && RunsOk({}) && TimesOk({})
      requires RecordsOk(Kept(), records) && MovingIn(log.moving, records)
      modifies `lastNumber, `byId, `unconfirmed, `ends, `usedIds, `tried, `runs, `byDue, `timer, `log
      ensures BooksOk(Kept()) && RunsOk({}) && TimesOk({})
      ensures Sending(old(Kept()), Kept(), terms)
      ensures log.moving == {} && lastNumber == old(lastNumber) + Zeros(records)
      ensures timer.Firing? == old(timer.Firing?)
      ensures Clean(works, old(tried), tried, old(log.ended), log.ended)
    {
      hide BooksOk, RecordsOk, MovingIn, Sending, Zeros, Clean, Unbroken, Confirmer.RunsOk, Confirmer.TimesOk;
      ghost var k := Kept();
      SendingNone(k, terms);
      CleanSame(works, tried, log.ended);
      ZerosNone([]);
      var rest := records;
      while rest != []
        invariant BooksOk(Kept()) && RunsOk({}) && TimesOk({})
        invariant RecordsOk(Kept(), rest) && MovingIn(log.moving, rest)
        invariant Sending(k, Kept(), terms)
        invariant lastNumber + Zeros(rest) == k.last + Zeros(records)
        invariant timer.Firing? == old(timer.Firing?)
        invariant Clean(works, old(tried), tried, old(log.ended), log.ended)
        decreases |rest|
      {
        ghost var before := Kept();
        rest := SendFrame(rest, terms);
        SendingTrans(k, before, Kept(), terms);
        UnbrokenSame(log.ended);
        CleanTry(works, tried, before.log.ended, log.ended);
        CleanTrans(works, old(tried), tried, tried + 1, old(log.ended), before.log.ended, log.ended);
        tried := tried + 1;
      }
      NoneMoving(log.moving);
    }

    /** Looks a list of pairs up among the runs: the numbers waited for that it names are
        each in a segment, and every place of a segment has a number it names. */
    method Segments(pairs: seq<U64>) returns (found: seq<Segment>)
      requires BooksOk(Kept()) && RunsOk({})
      ensures forall j :: 0 <= j < |found| ==> SegmentOk(found[j], runs, pairs)
      ensures forall n :: n in log.places && Names(pairs, n) ==> Found(found, log.places[n])
    {
      hide BooksOk, RunsExact, Disjoint, Covered, SegmentOk, Found, Holds, Names, PairNames, PairFound, PairsFound, Part, Plus;
      found := [];
      var pair := 0;
      NothingFound(pairs, log.places);
      while 2 * pair + 1 < |pairs|
        invariant forall j :: 0 <= j < |found| ==> SegmentOk(found[j], runs, pairs)
        invariant PairsFound(pairs, log.places, pair, found)
      {
        var first, past := First(pairs, pair), Plus(First(pairs, pair), Count(pairs, pair));
        if past <= first {
          EmptyPair(first, Count(pairs, pair));
        } else {
          var run := LastAtMost(runs, first);
          if run.None? {
            run := FirstAfter(runs, first);
          }
          PairBegins(runs, log.places, first, Count(pairs, pair), run, found);
          while run.Some? && run.value < past
            invariant run.Some? ==> run.value in runs
            invariant forall j :: 0 <= j < |found| ==> SegmentOk(found[j], runs, pairs)
            invariant PairsFound(pairs, log.places, pair, found)
            invariant PairFound(runs, log.places, first, Count(pairs, pair), run, found)
            decreases if run.Some? then past - run.value else 0
          {
            var at := run.value;
            var part := Part(runs[at], at, first, past);
            PartOk(runs, pairs, at, pair);
            forall n | n in log.places && Holds(runs[at], at, n, log.places[n]) && PairNames(first, Count(pairs, pair), n)
              ensures Found(part, log.places[n])
            {
              PartFinds(runs[at], at, first, Count(pairs, pair), n, log.places[n]);
            }
            run := FirstAfter(runs, at);
            PairStep(runs, log.places, first, Count(pairs, pair), at, run, found, part);
            PairsFoundMore(pairs, log.places, pair, found, part);
            found := found + part;
          }
          PairEnds(runs, log.places, first, Count(pairs, pair), run, found);
        }
        PairDone(pairs, log.places, pair, found);
        pair := pair + 1;
      }
      AllFound(pairs, log.places, pair, found);
    }

    /** Counts a run down, and drops it at zero. */
    method ResolvedInRun(id: Id, number: nat, count: nat, ghost key: nat)
      requires key in runs && runs[key].batch == id && Spans(runs[key], key, number) && Disjoint(runs, {})
      modifies `runs
      ensures runs == Lowered(old(runs), key, count)
    {
      var found := LastAtMost(runs, number);
      if found.None? {
        return;
      }
      var run := runs[found.value];
      assert found.value == key;
      if run.batch != id || number >= found.value + run.count {
        return;
      }
      var lowered := run.unresolved - if count < run.unresolved then count else run.unresolved;
      runs := if lowered == 0 then runs - {found.value} else runs[found.value := run.(unresolved := lowered)];
    }

    /** Ends what the segments cover and is waited for, by either path, and returns the
        batches that lost a number. */
    method ResolveSegments(found: seq<Segment>, outcome: Outcome, before: set<Id>) returns (heard: set<Id>)
      requires BooksOk(Kept()) && RunsOk({}) && TimesOk({})
      requires forall j :: 0 <= j < |found| ==> SegmentAt(found[j], runs, byId)
      modifies `byId, `unconfirmed, `ends, `runs, `log
      ensures BooksOk(Kept()) && RunsOk({}) && TimesOk({})
      ensures SegmentsEnded(old(Kept()), Kept(), found, outcome, heard) && before <= heard <= before + old(byId.Keys)
      ensures HeardOnly(old(Kept()), Kept(), before, heard)
    {
      hide HeardOnly, Fewer, BooksOk, Indexed, SegmentsEnded, SegmentAt, RangeResolved, ResolveRange, ResolveAt, Clear, DueIndexed, DueCurrent,
           Armed, RunsLeft, Disjoint, Lowered, Mark, BatchesLeft;
      ghost var k, was := Kept(), runs;
      IndexedDisjoint(runs, byId, log.places, log.ended);
      SegmentsNone(k, outcome, before);
      HeardNone(k, before);
      RunsLeftSame(runs);
      heard := before;
      var at := 0;
      while at < |found|
        invariant at <= |found|
        invariant BooksOk(Kept()) && RunsOk({}) && TimesOk({})
        invariant SegmentsEnded(k, Kept(), found[..at], outcome, heard) && RunsLeft(was, runs)
        invariant before <= heard <= before + k.byId.Keys && HeardOnly(k, Kept(), before, heard)
      {
        var s := found[at];
        ghost var k' := Kept();
        SegmentsLeft(k, k', found[..at], outcome, heard);
        SegmentStaysAt(s, was, k.byId, byId, heard);
        SegmentFits(s, was, byId);
        RangeForm(k', s.batch, s.begin, s.end, outcome);
        ghost var k'' := ResolveRange(k', s.batch, s.begin, s.end, outcome);
        SegmentEnded(k, k', k'', found[..at], s, outcome, heard);
        SegmentsFewer(k, k', found[..at], outcome, heard);
        HeardRange(k, k', k'', before, heard, s.batch, s.begin, s.end, outcome);
        SegmentIndexed(was, runs, k', k'', s, outcome);
        RangeDue(k', k'', byDue, s.batch, s.begin, s.end, outcome);
        assert found[..at + 1] == found[..at] + [s];
        var newly;
        if outcome.Processed? && byId[s.batch].followed == {} {
          newly := ResolveUnfollowed(s.batch, s.begin, s.end);
        } else {
          newly := ResolveMessages(s.batch, s.begin, s.end, outcome);
        }
        if newly != 0 {
          RunsLeftLowered(was, runs, s.key, newly);
          RunsLeftDisjoint(was, runs);
          ResolvedInRun(s.batch, s.key, newly, s.key);
          heard := heard + {s.batch};
        }
        at := at + 1;
      }
      assert found[..at] == found;
    }

    /** The messages at `indexes` not resolved yet taken out of their batch, to go
        again with their numbers, or, too late for that, given up on; the
        batch's runs are left to be registered anew. */
    method TakeMessages(id: Id, indexes: seq<nat>, late: bool) returns (records: seq<Record>)
      requires BooksOk(Kept()) && RunsOk({}) && TimesOk({}) && log.moving == {}
      requires id in byId && forall j :: 0 <= j < |indexes| ==> indexes[j] < |byId[id].resolved|
      modifies `byId, `unconfirmed, `ends, `log
      ensures BooksOk(Kept()) && RunsOk({id}) && TimesOk({})
      ensures Taking(old(Kept()), Kept(), id, indexes, GivenUp(NotConfirmed)) && (!late ==> log.ended == old(log.ended))
      ensures Ready(Kept(), records) && MovingIn(log.moving, records)
      ensures late ==> records == []
    {
      hide BooksOk, Indexed, Taking, Ready, MovingIn, DueIndexed, DueCurrent, Armed, ResolveAt;
      ghost var k := Kept();
      MoreStale(runs, byId, log.places, log.ended, id);
      TakingNone(k, id, GivenUp(NotConfirmed));
      ReadyEmpty(k);
      records := [];
      var at := 0;
      while at < |indexes|
        invariant at <= |indexes|
        invariant BooksOk(Kept()) && RunsOk({id}) && TimesOk({})
        invariant Taking(k, Kept(), id, indexes[..at], GivenUp(NotConfirmed)) && (!late ==> log.ended == k.log.ended)
        invariant Ready(Kept(), records) && MovingIn(log.moving, records)
        invariant late ==> records == []
        invariant id in byId && Within(records, byId[id])
      {
        var index := indexes[at];
        assert indexes[..at + 1] == indexes[..at] + [index];
        TakingFits(k, Kept(), id, indexes[..at], GivenUp(NotConfirmed));
        ghost var k' := Kept();
        if byId[id].resolved[index] {
          TakenAlready(k, k', id, indexes[..at], index, GivenUp(NotConfirmed));
        } else if late {
          TakenEnded(k, k', id, indexes[..at], index, GivenUp(NotConfirmed));
          EndedStale(runs, k', id, index, GivenUp(NotConfirmed));
          FlagsDue(byId, byDue, id, index);
          ResolvedForm(k', id, index, GivenUp(NotConfirmed));
          ReadyEmpty(ResolveAt(k', id, index, GivenUp(NotConfirmed)));
          NoneMoving(log.moving);
          var newly := Resolved(id, index, GivenUp(NotConfirmed));
        } else {
          TakenOut(k, k', id, indexes[..at], index, GivenUp(NotConfirmed));
          MovedStale(runs, k', id, index);
          FlagsDue(byId, byDue, id, index);
          RecordTaken(k', id, index, records);
          var b := byId[id];
          records := records + [Record(b.Number(index), index in b.followed)];
          byId := byId[id := b.(resolved := b.resolved[index := true], unresolved := b.unresolved - 1)];
          unconfirmed := unconfirmed - 1;
          log := MoveAt(k', id, index).log;
          assert Kept() == MoveAt(k', id, index);
        }
        at := at + 1;
      }
      assert indexes[..at] == indexes;
    }

    /** One message given up on, its run told. */
    method GiveUpOne(id: Id, index: nat)
      requires BooksOk(Kept()) && RunsOk({}) && TimesOk({})
      requires id in byId && index < |byId[id].resolved|
      modifies `byId, `unconfirmed, `ends, `runs, `log
      ensures BooksOk(Kept()) && RunsOk({}) && TimesOk({})
      ensures Kept() == ResolveAt(old(Kept()), id, index, Unsendable)
    {
      hide BooksOk, Indexed, DueIndexed, DueCurrent, Armed, ResolveAt, Lowered, Disjoint;
      ghost var k := Kept();
      ghost var key := 0;
      ResolvedForm(k, id, index, Unsendable);
      FlagsDue(byId, byDue, id, index);
      IndexedDisjoint(runs, byId, log.places, log.ended);
      if !byId[id].resolved[index] {
        key := RunOfOpen(runs, k, id, index);
        OneIndexed(runs, k, id, index, key, Unsendable);
      }
      var number := byId[id].Number(index);
      var newly := Resolved(id, index, Unsendable);
      if newly != 0 {
        ResolvedInRun(id, number, 1, key);
      }
    }

    /** What every operation keeps, but that a batch heard of within one may have
        nothing left. */
    ghost predicate Whole()
      reads `lastNumber, `byId, `unconfirmed, `ends, `usedIds, `marks, `log, `runs, `byDue, `timer, `clock
    {
      BooksOk(Kept()) && RunsOk({}) && TimesOk({}) && log.moving == {}
    }

    /** Messages whose frame does not read back, given up on one by one. */
    method GiveUpThese(id: Id, indexes: seq<nat>)
      requires BooksOk(Kept()) && RunsOk({}) && TimesOk({})
      requires id in byId && forall j :: 0 <= j < |indexes| ==> indexes[j] < |byId[id].resolved|
      modifies `byId, `unconfirmed, `ends, `runs, `log
      ensures BooksOk(Kept()) && RunsOk({}) && TimesOk({})
      ensures Taking(old(Kept()), Kept(), id, indexes, Unsendable) && log.moving == old(log.moving)
    {
      hide BooksOk, Indexed, Taking, DueIndexed, DueCurrent, Armed, ResolveAt;
      ghost var k := Kept();
      TakingNone(k, id, Unsendable);
      var at := 0;
      while at < |indexes|
        invariant at <= |indexes|
        invariant BooksOk(Kept()) && RunsOk({}) && TimesOk({})
        invariant Taking(k, Kept(), id, indexes[..at], Unsendable) && log.moving == k.log.moving
      {
        var index := indexes[at];
        assert indexes[..at + 1] == indexes[..at] + [index];
        TakingFits(k, Kept(), id, indexes[..at], Unsendable);
        ResolvedForm(Kept(), id, index, Unsendable);
        if byId[id].resolved[index] {
          TakenAlready(k, Kept(), id, indexes[..at], index, Unsendable);
        } else {
          TakenEnded(k, Kept(), id, indexes[..at], index, Unsendable);
        }
        GiveUpOne(id, index);
        at := at + 1;
      }
      assert indexes[..at] == indexes;
    }

    /** The messages `indexes` of a batch whose frame does not read back, given up on. */
    method NotReadBack(id: Id, indexes: seq<nat>, now: Time)
      requires Whole() && id in byId && forall j :: 0 <= j < |indexes| ==> indexes[j] < |byId[id].resolved|
      modifies `runs, `byId, `byDue, `timer, `unconfirmed, `ends, `log
      ensures Whole() && Resent(old(Kept()), Kept(), id, indexes, now)
      ensures timer.Firing? == old(timer.Firing?) && NewPlaced(old(byId), byId, goesBy)
    {
      hide BooksOk, Indexed, DueIndexed, DueCurrent, Armed, Resent, Taking, LeftBehind, Sending, NewPlaced;
      ghost var k, terms := Kept(), Terms(byId[id].deadline, byId[id].retryAfter, byId[id].backoff, goesBy);
      GiveUpThese(id, indexes);
      ghost var taken := Kept();
      TakingFits(k, taken, id, indexes, Unsendable);
      if byId[id].unresolved == 0 {
        MoreStale(runs, byId, log.places, log.ended, id);
      }
      ForgetResolved(id);
      LeftSame(taken.byId, byId, id);
      SendingNone(Kept(), terms);
      ResentFrom(k, taken, Kept(), Kept(), id, indexes, now, Unsendable, terms);
      PlacedNew(k, taken, Kept(), Kept(), id, indexes, Unsendable, terms);
    }

    /** The messages `indexes` taken out of a batch to go again, or, too late for that,
        ended; its runs registered anew, and the batch forgotten with nothing left. */
    method TakeOut(id: Id, indexes: seq<nat>, late: bool, ghost now: Time) returns (records: seq<Record>, ghost taken: Books)
      requires Whole() && id in byId && forall j :: 0 <= j < |indexes| ==> indexes[j] < |byId[id].resolved|
      requires late == (byId[id].deadline <= now)
      modifies `runs, `byId, `byDue, `timer, `unconfirmed, `ends, `log
      ensures BooksOk(Kept()) && RunsOk({}) && TimesOk({}) && timer.Firing? == old(timer.Firing?)
      ensures Taken(old(Kept()), taken, Kept(), id, indexes, records, late)
    {
      hide BooksOk, Indexed, DueIndexed, DueCurrent, Armed, Taking, LeftBehind, Ready, MovingIn, RecordsOk, Zeros, Fewer;
      ghost var k := Kept();
      records := TakeMessages(id, indexes, late);
      taken := Kept();
      TakingFits(k, taken, id, indexes, GivenUp(NotConfirmed));
      RebuildRuns(id);
      KeysDue(taken.byId, byDue, {}, id, byId[id].runKeys);
      ghost var rebuilt := byId;
      if byId[id].unresolved == 0 {
        MoreStale(runs, byId, log.places, log.ended, id);
      }
      ForgetResolved(id);
      LeftRebuilt(taken.byId, rebuilt, byId, id);
      ReadyKept(taken, Kept(), records);
    }

    /** The messages `indexes` of a batch sent again in batches of their own, or, too
        late for that, ended. */
    method TakeAndSend(id: Id, indexes: seq<nat>, late: bool, now: Time)
      requires Whole() && id in byId && forall j :: 0 <= j < |indexes| ==> indexes[j] < |byId[id].resolved|
      requires late == (byId[id].deadline <= now)
      modifies `lastNumber, `runs, `byId, `byDue, `timer, `unconfirmed, `ends, `sentAgain, `usedIds, `tried, `log
      ensures Whole() && Resent(old(Kept()), Kept(), id, indexes, now)
      ensures timer.Firing? == old(timer.Firing?) && NewPlaced(old(byId), byId, goesBy)
      ensures Clean(works, old(tried), tried, old(log.ended), log.ended)
    {
      hide BooksOk, Resent, Sending, MovingIn, RecordsOk, Zeros, Clean, NewPlaced, Taken, Confirmer.RunsOk, Confirmer.TimesOk;
      ghost var k := Kept();
      var terms := Terms(byId[id].deadline, byId[id].retryAfter, byId[id].backoff, goesBy);
      var records, taken := TakeOut(id, indexes, late, now);
      ghost var left := Kept();
      TakenParts(works, tried, k, taken, left, id, indexes, records, late);
      SendingNone(left, terms);
      if records != [] {
        sentAgain := sentAgain + |records|;
        SendBatch(records, terms);
        CleanTrans(works, old(tried), old(tried), tried, k.log.ended, left.log.ended, log.ended);
      } else {
        NoneMoving(log.moving);
      }
      TakenSent(k, taken, left, Kept(), id, indexes, records, late, now, terms);
    }

    /** The unresolved messages `indexes` of a batch go again, in batches of their
        own with its deadline, retry time and back-off, each with its number. Past
        the deadline they end instead, and where the frame to read them back from
        does not work. */
    method SendAgain(id: Id, indexes: seq<nat>)
      requires Whole()
      requires id in byId ==> forall j :: 0 <= j < |indexes| ==> indexes[j] < |byId[id].resolved|
      modifies `lastNumber, `runs, `byId, `byDue, `timer, `clock, `unconfirmed, `ends, `sentAgain, `usedIds, `tried, `log
      ensures Whole() && old(clock) <= clock
      ensures Resent(old(Kept()), Kept(), id, indexes, clock)
      ensures timer.Firing? == old(timer.Firing?) && NewPlaced(old(byId), byId, goesBy)
      ensures Clean(works, old(tried), tried, old(log.ended), log.ended)
    {
      hide BooksOk, Indexed, DueIndexed, DueCurrent, Armed, Resent, Clean, NewPlaced, Unbroken;
      ghost var k, at := Kept(), tried;
      CleanSame(works, tried, log.ended);
      var now := ReadClock();
      if id !in byId {
        ResentNone(k, id, indexes, now);
        NonePlaced(byId, goesBy);
        return;
      }
      var late := byId[id].deadline <= now;
      if !late {
        tried := tried + 1;
        if !works(tried - 1) {
          NotReadBack(id, indexes, now);
          CleanTry(works, at, k.log.ended, log.ended);
          return;
        }
        UnbrokenSame(log.ended);
        CleanTry(works, at, k.log.ended, log.ended);
      }
      ghost var begun := tried;
      TakeAndSend(id, indexes, late, now);
      CleanTrans(works, at, begun, tried, k.log.ended, k.log.ended, log.ended);
    }

    // The operations

    /** What holds between operations: the books agree, every number waited for
        is in the one run that says where it is held, the due times and the
        timer agree, and every batch kept has a message left. */
    ghost predicate Valid()
      reads this
    {
      Whole() && AllHold(byId) && !timer.Firing? && lastNumber in marks
    }

    ghost function Account(): Ledger
      reads this
    {
      LedgerOf(Kept())
    }

    constructor (works: nat -> bool, goesBy: Id -> Option<nat>)
      ensures Valid() && Account() == EMPTY && tried == 0
      ensures this.works == works && this.goesBy == goesBy
    {
      hide BooksOk, Indexed, DueIndexed, DueCurrent, Armed;
      this.works, this.goesBy, tried := works, goesBy, 0;
      lastNumber, runs, byId, byDue, timer, clock := 0, map[], map[], {}, Idle, 0;
      unconfirmed, ends, sentAgain, usedIds := 0, [], 0, {};
      log, marks := Log(map[], map[], {}, {}, map[], {}), {0};
      new;
      NoBooks(Kept());
      IndexedNone(log.ended);
    }

    /** Messages sent for the first time, confirmed: with no frame broken each is
        waited for. */
    method Send(followed: seq<bool>, deadline: Time, retryAfter: nat)
      requires Valid()
      modifies this
      ensures Valid() && marks == old(marks) + {lastNumber} && old(tried) <= tried
      ensures Sending(old(Kept()), Kept(), Terms(deadline, retryAfter, 0, goesBy))
      ensures Turned(old(Kept()), Besides(Sent(|followed|, deadline, Broke(works, old(tried), tried))), Kept())
    {
      hide BooksOk, Indexed, DueIndexed, DueCurrent, Armed, Sending, Zeros, Step, Broke, Unbroken, Turned;
      ghost var k := Kept();
      var terms := Terms(deadline, retryAfter, 0, goesBy);
      var records := seq(|followed|, i requires 0 <= i < |followed| => Record(0, followed[i]));
      ZerosAll(records);
      SendBatch(records, terms);
      SentHold(k, Kept(), terms);
      StepSent(k, Kept(), |followed|, terms, Broke(works, old(tried), tried));
      MarkLast(Kept());
      MarkedLedger(Kept());
      MarkedSending(k, Kept(), terms);
      marks := marks + {lastNumber};
      TurnedSent(k, Sent(|followed|, deadline, Broke(works, old(tried), tried)), Kept(), terms);
    }

    /** Ends what is open in a batch and drops the batch. */
    method GiveUpBatch(id: Id, reason: DropReason)
      requires Whole() && id in byId
      modifies `lastNumber, `runs, `byId, `byDue, `timer, `clock, `unconfirmed, `ends, `sentAgain, `usedIds, `log
      ensures Whole() && clock == old(clock) && lastNumber == old(lastNumber) && usedIds == old(usedIds)
      ensures byId == old(byId) - {id}
      ensures OnlyWith(old(log.places), old(log.ended), log.ended, GivenUp(reason))
      ensures timer.Firing? == old(timer.Firing?)
    {
      hide BooksOk, Indexed, DueIndexed, DueCurrent, Armed, ResolveRange, RangeResolved, Clear, OnlyWith;
      ghost var k := Kept();
      RangeForm(k, id, 0, |byId[id].resolved|, GivenUp(reason));
      ghost var k' := ResolveRange(k, id, 0, |byId[id].resolved|, GivenUp(reason));
      MoreStale(runs, byId, log.places, log.ended, id);
      RangeStale(runs, k, k', {}, id, 0, |byId[id].resolved|, GivenUp(reason));
      WholeBatch(k, k', id, GivenUp(reason));
      RangeDue(k, k', byDue, id, 0, |byId[id].resolved|, GivenUp(reason));
      var newly := ResolveMessages(id, 0, |byId[id].resolved|, GivenUp(reason));
      ForgetResolved(id);
    }

    /** A frame dropped: exactly the numbers its batch holds end, for `reason`. */
    method FrameDropped(id: Id, reason: DropReason)
      requires Valid()
      modifies `lastNumber, `runs, `byId, `byDue, `timer, `clock, `unconfirmed, `ends, `sentAgain, `usedIds, `log
      ensures Valid() && byId == old(byId) - {id}
      ensures Turned(old(Kept()), Besides(Dropped(reason)), Kept())
      ensures forall n :: n in old(log.places) ==> (n in log.places <==> old(log.places)[n].id != id)
    {
      hide BooksOk, Indexed, DueIndexed, DueCurrent, Armed, OnlyWith, Step, Turned;
      ghost var k := Kept();
      if id in byId {
        GiveUpBatch(id, reason);
      } else {
        NothingEnded(log.places, log.ended, GivenUp(reason));
        assert byId == byId - {id};
      }
      HeldNoMore(k, Kept(), id);
      DroppedKeepsDeadlines(k, Kept(), id);
      StepDropped(k, Kept(), reason);
      TurnedLess(k, Dropped(reason), Kept());
    }

    /** The end of a frame's sending: its batch is as `WrittenAt` says, or, not written,
        gone with its numbers. */
    method FrameWritten(id: Id, written: bool)
      requires Valid()
      modifies `lastNumber, `runs, `byId, `byDue, `timer, `clock, `unconfirmed, `ends, `sentAgain, `usedIds, `log
      ensures Valid() && Untouched(old(byId), byId, {id})
      ensures written ==> log == old(log) && lastNumber == old(lastNumber)
      ensures written && id in old(byId) ==>
        byId == old(byId)[id := Due(WrittenAt(old(byId)[id], clock))]
      ensures Turned(old(Kept()), if written then Wrote(id, clock) else Besides(Dropped(NoConnection)), Kept())
    {
      hide BooksOk, Indexed, DueIndexed, DueCurrent, Armed, OnlyWith, Step, Late, KeepsDeadlines, AllHold, Turned;
      if !written {
        FrameDropped(id, NoConnection);
        return;
      }
      ghost var k := Kept();
      if id in byId {
        var now := ReadClock();
        var b := byId[id];
        SetTimes(id, WrittenAt(b, now));
        TimesLate(k, Kept(), id, clock);
      } else {
        LateNone(k, clock);
      }
      UnbrokenSame(log.ended);
      StepRetried(k, Kept(), clock, false);
      TurnedOne(k, Wrote(id, clock), Kept(), id);
    }

    /** A batch's times changed, and its place among those due with them. */
    method SetTimes(id: Id, c: Batch)
      requires Whole() && id in byId
      requires SameMessages(byId[id], c) && byId[id].runKeys == c.runKeys && byId[id].due == c.due
      modifies `byId, `byDue, `timer
      ensures Whole() && byId == old(byId)[id := c.(due := DueOf(c))]
      ensures timer.Firing? == old(timer.Firing?)
      ensures old(AllHold(byId)) ==> AllHold(byId)
    {
      hide BooksOk, Indexed, DueIndexed, DueCurrent, Armed;
      SameBooks(Kept(), id, c);
      SameIndexed(runs, byId, log.places, log.ended, {}, id, c);
      TimesChanged(byId, byDue, id, c);
      byId := byId[id := c];
      ConfirmingDue(id, {});
    }

    /** Nobody took a batch: its times are as `NotTakenAt` says. */
    method BatchNotTaken(id: Id) returns (ours: bool)
      requires Valid()
      modifies `lastNumber, `runs, `byId, `byDue, `timer, `clock, `unconfirmed, `ends, `sentAgain, `usedIds, `log
      ensures Valid() && ours == (id in old(byId)) && Untouched(old(byId), byId, {id})
      ensures log == old(log) && lastNumber == old(lastNumber)
      ensures ours ==> byId == old(byId)[id := Due(NotTakenAt(old(byId)[id], clock))]
      ensures Turned(old(Kept()), NotTaken(id, clock), Kept())
    {
      hide BooksOk, Indexed, DueIndexed, DueCurrent, Armed, Step, Late, KeepsDeadlines, AllHold, Turned;
      ghost var k := Kept();
      ours := id in byId;
      if ours {
        var now := ReadClock();
        var b := byId[id];
        SetTimes(id, NotTakenAt(b, now));
        TimesLate(k, Kept(), id, clock);
      } else {
        LateNone(k, clock);
      }
      UnbrokenSame(log.ended);
      StepRetried(k, Kept(), clock, false);
      TurnedOne(k, NotTaken(id, clock), Kept(), id);
    }

    /** What is unresolved of a batch sent again, and the batch forgotten. */
    method SendUnresolvedAgain(id: Id)
      requires Whole() && id in byId
      modifies `lastNumber, `runs, `byId, `byDue, `timer, `clock, `unconfirmed, `ends, `sentAgain, `usedIds, `tried, `log
      ensures Whole() && old(clock) <= clock
      ensures lastNumber == old(lastNumber) && old(usedIds) <= usedIds
      ensures Late(old(Kept()), Kept(), clock) && KeepsDeadlines(old(Kept()), Kept())
      ensures ResentBatches(old(byId), byId, old(usedIds), id, clock) && id !in byId
      ensures timer.Firing? == old(timer.Firing?)
      ensures Clean(works, old(tried), tried, old(log.ended), log.ended)
    {
      hide BooksOk, Indexed, DueIndexed, DueCurrent, Armed, Resent, ResentBatches, Late, KeepsDeadlines, Clean, NewPlaced;
      ghost var k := Kept();
      var b := byId[id];
      var indexes: seq<nat> := [];
      for index := 0 to |b.resolved|
        invariant forall j :: 0 <= j < |indexes| ==> indexes[j] < |b.resolved|
        invariant forall i :: 0 <= i < index && !b.resolved[i] ==> i in indexes
      {
        if !b.resolved[index] {
          indexes := indexes + [index];
        }
      }
      SendAgain(id, indexes);
      AllResent(k, Kept(), id, indexes, clock);
      ResentLate(k, Kept(), id, indexes, clock);
      ResentParts(k, Kept(), id, indexes, clock);
    }

    /** A batch whose time came: past its deadline what is left of it is given up on,
        else its retry time came, and what is unresolved of it is sent again. */
    method OneDue(id: Id, now: Time)
      requires Whole() && AllHold(byId) && timer.Firing? && id in byId && byId[id].due <= now <= clock
      modifies `lastNumber, `runs, `byId, `byDue, `timer, `clock, `unconfirmed, `ends, `sentAgain, `usedIds, `tried, `log
      ensures Whole() && AllHold(byId) && timer.Firing? && old(clock) <= clock
      ensures lastNumber == old(lastNumber) && old(usedIds) <= usedIds
      ensures Late(old(Kept()), Kept(), clock) && KeepsDeadlines(old(Kept()), Kept())
      ensures OneGone(old(byId), byId, old(usedIds), id, now)
      ensures Clean(works, old(tried), tried, old(log.ended), log.ended)
    {
      hide BooksOk, Indexed, DueIndexed, Armed, Late, KeepsDeadlines, AllHold, ResentBatches, OnlyWith, OneGone, Clean;
      ghost var k := Kept();
      if byId[id].deadline <= now {
        GiveUpBatch(id, NotConfirmed);
        GivenUpLate(k, Kept(), id, clock);
        CleanDropped(works, tried, k.log.places, k.log.ended, log.ended, GivenUp(NotConfirmed));
        ForgottenHold(k.byId, id);
      } else if byId[id].written && byId[id].retryAt <= now {
        SendUnresolvedAgain(id);
        ResentHold(k.byId, byId, k.usedIds, id, clock);
      } else {
        assert false;  // a batch due is due by its deadline or its retry time
      }
      OneGoneBy(k.byId, byId, k.usedIds, id, now, clock);
    }

    lemma WholeRested()
      requires Whole()
      ensures Rested(Kept()) && DueCurrent(byId, {})
    {
      hide BooksOk;
    }

    /** The timer's handler begins: the time, and the batches due by then. */
    method StartFiring() returns (due: set<Id>, now: Time)
      requires Whole() && !timer.Firing?
      modifies `timer, `clock
      ensures Whole() && timer.Firing? && old(clock) <= now == clock
      ensures due <= usedIds && DueLeft(byId, due, now)
    {
      hide BooksOk, Indexed, DueIndexed, DueCurrent, Armed, DueLeft;
      timer := Firing;
      ArmedFiring(byDue);
      now := ReadClock();
      due := set e | e in byDue && e.0 <= now :: e.1;
      DueStart(byId, byDue, due, now);
      DueUsed(Kept(), byDue, due);
    }

    /** And ends: the timer runs to the earliest batch left. */
    method ArmAnew()
      requires Whole() && timer.Firing?
      modifies `timer
      ensures Whole() && !timer.Firing?
    {
      hide BooksOk, Indexed, DueIndexed, DueCurrent, Armed;
      timer := Idle;
      ArmTimer();
      ArmedAgain(byDue, timer);
    }

    /** Every batch due goes. */
    method DueGo(due: set<Id>, now: Time)
      requires Whole() && timer.Firing? && AllHold(byId) && now <= clock && due <= usedIds && DueLeft(byId, due, now)
      modifies `lastNumber, `runs, `byId, `byDue, `timer, `clock, `unconfirmed, `ends, `sentAgain, `usedIds, `tried, `log
      ensures Whole() && timer.Firing? && AllHold(byId) && old(clock) <= clock
      ensures Going(old(Kept()), Kept(), due, {}, now, clock)
      ensures Clean(works, old(tried), tried, old(log.ended), log.ended)
    {
      hide Late, KeepsDeadlines, AllHold, DueLeft, OneGone, Going, Clean, Confirmer.Whole, Rested;
      ghost var k := Kept();
      CleanSame(works, tried, log.ended);
      GoingBegins(k, due, now, clock);
      WholeRested();
      var todo := due;
      while todo != {}
        invariant Whole() && timer.Firing? && AllHold(byId) && now <= clock && old(clock) <= clock
        invariant Going(k, Kept(), due, todo, now, clock)
        invariant Clean(works, old(tried), tried, k.log.ended, log.ended)
        decreases |todo|
      {
        var id :| id in todo;
        ghost var before, since, at := Kept(), clock, tried;
        WholeRested();
        if id in byId {
          GoingDue(k, before, due, todo, now, id, since);
          OneDue(id, now);
          WholeRested();
          CleanTrans(works, old(tried), at, tried, k.log.ended, before.log.ended, log.ended);
          GoingOn(k, before, Kept(), due, todo, now, id, since, clock);
        } else {
          GoingNot(k, before, due, todo, now, id, since);
        }
        todo := todo - {id};
      }
    }

    /** Deals with every batch due. Afterwards none is due at `now`; those that were are
        gone, their numbers in new batches unless past the deadline or a frame broke;
        and no other batch is touched. */
    method TimerFired() returns (now: Time)
      requires Valid()
      modifies `lastNumber, `runs, `byId, `byDue, `timer, `clock, `unconfirmed, `ends, `sentAgain, `usedIds, `tried, `log
      ensures Valid() && old(clock) <= now <= clock && old(tried) <= tried
      ensures Turned(old(Kept()), Fired(now, clock, Broke(works, old(tried), tried)), Kept())
      ensures forall id :: id in old(byId) ==>
        (id !in byId <==> old(byId)[id].deadline <= now || (old(byId)[id].written && old(byId)[id].retryAt <= now))
      ensures !Broke(works, old(tried), tried) ==> SentOn(old(Kept()), Kept(), DueBy(old(byId), now), clock)
      ensures forall id :: id in byId ==> now < byId[id].due
      ensures Untouched(old(byId), byId, DueBy(old(byId), now)) && DueBy(old(byId), now) !! byId.Keys
      ensures HeldBut(old(log.places), log.places, DueBy(old(byId), now))
    {
      hide Confirmer.Whole, Rested, Step, Late, KeepsDeadlines, AllHold, DueLeft, Untouched, HeldBut, DueBy, Going, Clean, Unbroken,
           Broke, SentOn, Turned, NewIds, DueCurrent;
      ghost var k := Kept();
      WholeRested();
      var due;
      due, now := StartFiring();
      DueGo(due, now);
      WholeRested();
      CleanIs(works, old(tried), tried, k.log.ended, log.ended);
      GoingOver(k, Kept(), due, now, clock);
      ArmAnew();
      StepRetried(k, Kept(), clock, Broke(works, old(tried), tried));
      TurnedFired(k, Kept(), now, clock, Broke(works, old(tried), tried));
      FiredLeaves(k, Fired(now, clock, Broke(works, old(tried), tried)), Kept());
    }

    /** The batches placed on a connection that closed, placed on none. */
    method Unplace(placed: set<Id>)
      requires Valid() && placed <= byId.Keys
      modifies `byId, `byDue, `timer
      ensures Valid() && byId.Keys == old(byId.Keys) && Untouched(old(byId), byId, placed)
      ensures forall id :: id in placed ==> byId[id] == old(byId)[id].(placedOn := None)
      ensures Late(old(Kept()), Kept(), clock) && KeepsDeadlines(old(Kept()), Kept())
    {
      hide BooksOk, Indexed, DueIndexed, DueCurrent, Armed, Late, KeepsDeadlines, AllHold, Untouched;
      ghost var k := Kept();
      AllUntouched(byId, placed);
      LateNone(k, clock);
      var left := placed;
      while left != {}
        invariant Valid() && byId.Keys == k.byId.Keys && left <= placed
        invariant Late(k, Kept(), clock) && KeepsDeadlines(k, Kept())
        invariant Untouched(k.byId, byId, placed)
        invariant forall id :: id in placed ==> byId[id] == if id in left then k.byId[id] else k.byId[id].(placedOn := None)
        decreases |left|
      {
        var id :| id in left;
        var b := byId[id].(placedOn := None);
        DueIs(byId, id);
        SetUntouched(k.byId, byId, id, b.(due := DueOf(b)), placed);
        ghost var before := Kept();
        SetTimes(id, b);
        TimesLate(before, Kept(), id, clock);
        LateTrans(k, before, Kept(), clock, clock);
        left := left - {id};
      }
    }

    /** The batches of a lost connection: those written, or known to be by their
        trackers, are gone and their numbers in new ones; the rest stay, placed
        nowhere. */
    method ConnectionClosed(conn: nat, sent: set<Id>)
      requires Valid()
      modifies `lastNumber, `runs, `byId, `byDue, `timer, `clock, `unconfirmed, `ends, `sentAgain, `usedIds, `tried, `log
      ensures Valid() && old(tried) <= tried
      ensures Turned(old(Kept()), Closed(conn, sent, clock, Broke(works, old(tried), tried)), Kept())
      ensures Untouched(old(byId), byId, PlacedOn(old(byId), conn))
      ensures forall id :: id in PlacedOn(old(byId), conn) && id !in WrittenOn(old(byId), conn, sent) ==>
        id in byId && byId[id] == old(byId)[id].(placedOn := None)
      ensures !Broke(works, old(tried), tried) ==> SentOn(old(Kept()), Kept(), WrittenOn(old(byId), conn, sent), clock)
      ensures WrittenOn(old(byId), conn, sent) !! byId.Keys
      ensures HeldBut(old(log.places), log.places, PlacedOn(old(byId), conn))
    {
      hide BooksOk, Indexed, DueIndexed, DueCurrent, Armed, Step, Late, KeepsDeadlines, AllHold, ResentBatches, Untouched, HeldBut,
           Clean, Unbroken, Broke, SentOn, Closing, Turned, NewIds;
      ghost var k := Kept();
      CleanSame(works, tried, log.ended);
      var placed := PlacedOn(byId, conn);
      var again := WrittenOn(byId, conn, sent);
      Unplace(placed);
      ghost var written := again;
      BatchesUsed(k);
      ClosingBegins(k, Kept(), placed, written, clock);
      while again != {}
        invariant Valid() && again <= written && Closing(k, Kept(), placed, written, again, clock)
        invariant Clean(works, old(tried), tried, k.log.ended, log.ended)
        decreases |again|
      {
        var id :| id in again;
        ghost var before, since, at := Kept(), clock, tried;
        ClosingHas(k, before, placed, written, again, since, id);
        SendUnresolvedAgain(id);
        CleanTrans(works, old(tried), at, tried, k.log.ended, before.log.ended, log.ended);
        ResentHold(before.byId, byId, before.usedIds, id, clock);
        ClosingOn(k, before, Kept(), placed, written, again, id, since, clock);
        again := again - {id};
      }
      CleanIs(works, old(tried), tried, k.log.ended, log.ended);
      ClosingOver(k, Kept(), placed, written, clock);
      StepRetried(k, Kept(), clock, Broke(works, old(tried), tried));
      TurnedClosed(k, Kept(), conn, sent, clock, Broke(works, old(tried), tried));
    }

    /** Ends every number waited for, as the shutdown does. */
    method GiveUpConfirmations(reason: DropReason)
      requires Valid()
      modifies `runs, `byId, `byDue, `timer, `unconfirmed, `ends, `log
      ensures Valid() && byId == map[] && unconfirmed == 0
      ensures Turned(old(Kept()), Besides(GaveUp(reason)), Kept())
    {
      hide BooksOk, Step, OnlyWith, GivingUp, Indexed, DueIndexed, DueCurrent, Armed, KeepsDeadlines, Deadlines, Turned;
      ghost var k := Kept();
      GiveUpEach(reason);
      GivenUpAll(k, Kept(), GivenUp(reason));
      NothingHeld(Kept());
      CountNone(Kept());
      byId, runs, byDue, timer := map[], map[], {}, Idle;
      IndexedNone(log.ended);
      NoneWaited(k, Kept());
      StepDropped(k, Kept(), reason);
      TurnedLess(k, GaveUp(reason), Kept());
    }

    /** Ends what is open in every batch, the batches kept. */
    method GiveUpEach(reason: DropReason)
      requires BooksOk(Kept())
      modifies `byId, `unconfirmed, `ends, `log
      ensures BooksOk(Kept()) && GivingUp(old(Kept()), Kept(), {}, GivenUp(reason))
    {
      hide BooksOk, OnlyWith, ResolveRange, RangeResolved, GivingUp;
      ghost var k := Kept();
      GivingUpStart(k, GivenUp(reason));
      var waiting := byId.Keys;
      while waiting != {}
        invariant BooksOk(Kept()) && GivingUp(k, Kept(), waiting, GivenUp(reason)) && waiting <= byId.Keys
        decreases |waiting|
      {
        var id :| id in waiting;
        ghost var k' := Kept();
        RangeForm(k', id, 0, |byId[id].resolved|, GivenUp(reason));
        GivingUpStep(k, k', ResolveRange(k', id, 0, |byId[id].resolved|, GivenUp(reason)), waiting, id, GivenUp(reason));
        GivingUpKeys(k, k', waiting, GivenUp(reason));
        var newly := ResolveMessages(id, 0, |byId[id].resolved|, GivenUp(reason));
        waiting := waiting - {id};
        GivingUpKeys(k, Kept(), waiting, GivenUp(reason));
      }
    }

    /** Hands out the ends due. With those handed out before, each followed number that
        has ended is among them exactly once. */
    method RunEnds() returns (due: seq<(nat, bool)>)
      requires Valid()
      modifies `ends, `log
      ensures Valid() && Account() == old(Account())
      ensures due == old(ends) && ends == []
      ensures forall i :: 0 <= i < |due| ==> due[i].0 !in old(log.ran) && due[i].1 == log.ended[due[i].0].Processed?
      ensures forall i, j :: 0 <= i < j < |due| ==> due[i].0 != due[j].0
      ensures log.ran == set n | n in log.ended && n in log.follows
      ensures Turned(old(Kept()), Besides(Retried(clock, false)), Kept())
    {
      hide BooksOk, Indexed, DueIndexed, DueCurrent, Armed, Turned, Step;
      ghost var k := Kept();
      due := ends;
      DueEnds(Kept());
      RunBooks(Kept());
      ends := [];
      log := log.(ran := log.ran + set e | e in due :: e.0);
      StepNone(k, clock);
      TurnedLess(k, Retried(clock, false), Kept());
    }

    /** The mark a flush takes. */
    method ConfirmMark() returns (mark: nat)
      requires Valid()
      ensures mark in marks && mark == lastNumber
    {
      return lastNumber;
    }

    /** Whether a flush must wait that took `mark`: exactly while a number up to
        the mark is waited for. The lowest run's key may be of a message long
        ended, but its batch has numbers on one side of the mark only. */
    method ConfirmingUpTo(mark: nat) returns (waits: bool)
      requires Valid() && mark in marks
      ensures waits <==> exists n :: n in log.places && n <= mark
      ensures waits <==> exists n :: 1 <= n <= mark && n !in log.ended
    {
      hide BooksOk, Indexed, DueIndexed, DueCurrent, Armed, Balanced;
      MarkBalanced(Kept(), mark);
      var low := LastAtMost(runs, mark);
      if low.Some? {
        ghost var n := RunBelowWaits(runs, Kept(), mark, low.value);
        return true;
      }
      NoRunWaits(runs, Kept(), mark);
      return false;
    }

    /** The refused messages go again, group by group. */
    method SendGroupsAgain(groups: seq<(Id, seq<nat>)>, ghost heard: set<Id>)
      requires Whole() && HoldBut(byId, heard)
      requires GroupsFit(groups, byId) && forall g :: 0 <= g < |groups| ==> groups[g].0 in usedIds
      modifies `lastNumber, `runs, `byId, `byDue, `timer, `clock, `unconfirmed, `ends, `sentAgain, `usedIds, `tried, `log
      ensures Whole() && HoldBut(byId, heard)
      ensures ResentGroups(old(Kept()), Kept(), groups, clock) && old(clock) <= clock
      ensures timer.Firing? == old(timer.Firing?)
      ensures Clean(works, old(tried), tried, old(log.ended), log.ended)
      ensures ResentIn(old(byId), byId, GroupIds(groups), old(usedIds))
    {
      hide BooksOk, Indexed, DueIndexed, DueCurrent, Armed, Resent, ResentGroups, ResentBatches, HoldBut, Clean, NewPlaced,
           ResentIn, GroupIds;
      ghost var k := Kept();
      BatchesUsed(k);
      NoGroupIds();
      ResentInNone(byId, usedIds);
      CleanSame(works, tried, log.ended);
      ResentGroupsNone(k, clock);
      var at := 0;
      while at < |groups|
        invariant at <= |groups|
        invariant Whole() && HoldBut(byId, heard)
        invariant GroupsFit(groups, byId) && k.usedIds <= usedIds
        invariant ResentGroups(k, Kept(), groups[..at], clock) && old(clock) <= clock
        invariant Clean(works, old(tried), tried, k.log.ended, log.ended)
        invariant ResentIn(k.byId, byId, GroupIds(groups[..at]), k.usedIds)
        invariant timer.Firing? == old(timer.Firing?)
      {
        var group := groups[at];
        assert groups[..at + 1] == groups[..at] + [group];
        ghost var k', since, begun := Kept(), clock, tried;
        SendAgain(group.0, group.1);
        CleanTrans(works, old(tried), begun, tried, k.log.ended, k'.log.ended, log.ended);
        ResentGroup(k, k', Kept(), groups[..at], group, since, clock);
        ResentParts(k', Kept(), group.0, group.1, clock);
        ResentInMore(k.byId, k'.byId, byId, GroupIds(groups[..at]), k.usedIds, k'.usedIds, group.0, clock);
        MoreGroupIds(groups[..at], group);
        GroupsStillFit(groups, k'.byId, byId, k'.usedIds, group.0, clock);
        HoldButResent(k'.byId, byId, k'.usedIds, group.0, clock, heard);
        at := at + 1;
      }
      assert groups[..at] == groups;
    }

    /** A batch that heard of a message: forgotten with nothing left, else its times set. */
    method HeardOne(id: Id, ghost heard: set<Id>, now: Time)
      requires Whole() && HoldBut(byId, heard) && !timer.Firing? && id in heard && id in byId
      modifies `runs, `byId, `byDue, `timer
      ensures Whole() && HoldBut(byId, heard - {id}) && !timer.Firing?
      ensures KeepsDeadlines(old(Kept()), Kept())
      ensures byId == if old(byId)[id].unresolved == 0 then old(byId) - {id} else old(byId)[id := Due(HeardAt(old(byId)[id], now))]
    {
      hide BooksOk, Indexed, DueIndexed, DueCurrent, Armed, HoldBut, AllHold, KeepsDeadlines;
      ghost var before := Kept();
      HoldButForgotten(byId, heard, id);
      var b := byId[id];
      if b.unresolved == 0 {
        MoreStale(runs, byId, log.places, log.ended, id);
        ForgetResolved(id);
        DroppedKeepsDeadlines(before, Kept(), id);
      } else {
        Unresolved(Kept(), id);
        HoldButChanged(byId, heard, id, Due(HeardAt(b, now)));
        SetTimes(id, HeardAt(b, now));
        TimesLate(before, Kept(), id, 0);
      }
    }

    /** The batches that heard of a message, each in turn. */
    method HeardOf(ids: set<Id>)
      requires Whole() && HoldBut(byId, ids) && !timer.Firing? && lastNumber in marks
      modifies `runs, `byId, `byDue, `timer, `clock
      ensures Valid() && old(clock) <= clock
      ensures KeepsDeadlines(old(Kept()), Kept())
      ensures Heeded(old(byId), byId, ids, clock)
    {
      hide HoldBut, AllHold, KeepsDeadlines, Heeded, Confirmer.Whole, Rested, Due, HeardAt;
      ghost var k := Kept();
      WholeRested();
      LateNone(k, 0);
      var now := NextClock();
      var heard := ids;
      HeededNone(byId, now);
      assert ids - heard == {};
      while heard != {}
        invariant Whole() && HoldBut(byId, heard) && !timer.Firing? && clock == now
        invariant heard <= ids && Heeded(k.byId, byId, ids - heard, now)
        invariant KeepsDeadlines(k, Kept())
        decreases |heard|
      {
        ghost var before := Kept();
        WholeRested();
        var id :| id in heard;
        if id in byId {
          HeardOne(id, heard, now);
          WholeRested();
          KeepsTrans(k, before, Kept());
        } else {
          HoldButForgotten(byId, heard, id);
        }
        HeededMore(k.byId, before.byId, byId, ids - heard, id, now);
        assert (ids - heard) + {id} == ids - (heard - {id});
        heard := heard - {id};
      }
      HoldAll(byId);
      assert ids - heard == ids;
    }

    /** The clock read between other steps. */
    method NextClock() returns (now: Time)
      requires Whole()
      modifies `clock
      ensures Whole() && old(clock) <= now == clock
    {
      hide BooksOk, Indexed, DueIndexed, DueCurrent, Armed;
      now := ReadClock();
    }

    /** A list of a CONFIRMATION that ends what it names: those waited for, and no others. */
    method ResolveList(pairs: seq<U64>, outcome: Outcome, before: set<Id>) returns (heard: set<Id>, ghost found: seq<Segment>)
      requires Whole() && HoldBut(byId, before)
      modifies `byId, `unconfirmed, `ends, `runs, `log
      ensures Whole() && HoldBut(byId, heard) && before <= heard
      ensures Exactly(old(log.places), found, pairs) && SegmentsEnded(old(Kept()), Kept(), found, outcome, heard)
      ensures HeardOnly(old(Kept()), Kept(), before, heard)
    {
      hide BooksOk, Indexed, DueIndexed, DueCurrent, Armed, SegmentAt, SegmentOk, SegmentsEnded, HoldBut, Names, Found, Exactly, Placed,
           HeardOnly;
      ghost var k := Kept();
      BooksPlaced(k);
      var segments := Segments(pairs);
      FoundExactly(runs, byId, log.places, log.ended, segments, pairs);
      heard := ResolveSegments(segments, outcome, before);
      found := segments;
      HoldButEnded(k, Kept(), found, outcome, before, heard);
      EndedKeepsMoving(k, Kept(), found, outcome, heard);
    }

    /** A CONFIRMATION's three lists, as one step of the ledger; each batch afterwards is
        as `ConfirmedBatch` says. */
    method OnConfirmation(processed: seq<U64>, failed: seq<U64>, refused: seq<U64>)
      requires Valid()
      modifies `lastNumber, `runs, `byId, `byDue, `timer, `clock, `unconfirmed, `ends, `sentAgain, `usedIds, `tried, `log
      ensures Valid() && old(tried) <= tried
      ensures Turned(old(Kept()), Heard(processed, failed, refused, clock, Broke(works, old(tried), tried)), Kept())
      ensures forall n :: n in old(log.places) && n in log.places && Names(refused, n) ==> log.places[n].id !in old(usedIds)
      ensures !Broke(works, old(tried), tried) ==> StayWaiting(old(Kept()), Kept(), processed, failed, clock)
      ensures forall id :: id in old(byId) ==> ConfirmedBatch(old(Kept()), Kept(), processed, failed, refused, clock, id)
    {
      hide BooksOk, Indexed, DueIndexed, DueCurrent, Armed, SegmentAt, SegmentOk, SegmentsEnded, HoldBut, AllHold, Names, Found,
           Touched, Exactly, Step, ResentGroups, GroupsFit, Placed, BatchesOk, Clean, Unbroken, Broke,
           HeardOnly, ResentIn, Heeded, ConfirmedBatch, Deadlines, GroupIds, StayWaiting, Moves, Turned;
      ghost var k := Kept();
      HoldAll(byId);
      var heard, found := ResolveList(processed, Processed, {});
      ghost var k1, heard1 := Kept(), heard;
      ghost var found';
      heard, found' := ResolveList(failed, GivenUp(Failed), heard);
      ghost var k2 := Kept();

      BooksPlaced(k2);
      var found'' := Segments(refused);
      FoundExactly(runs, byId, log.places, log.ended, found'', refused);
      var groups := Grouped(found'', runs, byId);
      BatchesUsed(k2);
      SendGroupsAgain(groups, heard);
      ghost var k3, since := Kept(), clock;
      ghost var broken := Broke(works, old(tried), tried);
      CleanIs(works, old(tried), tried, k2.log.ended, log.ended);
      StepConfirmation(k, k1, k2, k3, Confirmation(processed, failed, refused, since, broken), found, found', found'', groups, heard1, heard);
      RefusedMoved(k, k1, k2, k3, refused, found, found', found'', groups, heard1, heard, since);
      HeardMoves(k, k1, k2, k3, found, found', groups, heard1, heard, since);
      HeardOf(heard);
      StepLater(k, k3, Kept(), processed, failed, refused, since, clock, broken);
      RefusedWait(k, Kept(), Confirmation(processed, failed, refused, clock, broken));
      ConfirmedAll(k, k1, k2, k3, Kept(), processed, failed, refused, found, found', found'', groups, heard1, heard, since, clock);
      MovesSame(k, k3, Kept());
      TurnedHeard(k, Heard(processed, failed, refused, clock, broken), Kept());
    }
  }
}
