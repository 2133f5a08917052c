/** Messages numbered, made into batches and sent, first and again: what each keeps
    of the books. */
module ConfirmingSends {
  import opened Flags
  import opened Confirming
  import opened ConfirmingBooks

  /** Messages on their way, each with a number that is on its way or none yet,
      no number twice. */
  ghost predicate RecordsOk(k: Books, records: seq<Record>) {
    && (forall i :: 0 <= i < |records| && records[i].number != 0 ==>
                      records[i].number in k.log.moving && (records[i].number in k.log.follows <==> records[i].followed))
    && (forall i, j :: 0 <= i < j < |records| && records[i].number != 0 ==> records[i].number != records[j].number)
    && SameSide(records, k.marks)
  }

  /** No mark lies among the numbers of some messages, those with none yet being
      above every mark. */
  ghost predicate SameSide(records: seq<Record>, marks: set<nat>) {
    forall m, i, j :: m in marks && 0 <= i < |records| && 0 <= j < |records| && 0 < records[i].number <= m ==>
      0 < records[j].number <= m
  }

  function GiveNumber(k: Books, followed: bool): Books {
    k.(last := k.last + 1,
       log := k.log.(moving := k.log.moving + {k.last + 1},
                     follows := if followed then k.log.follows + {k.last + 1} else k.log.follows))
  }

  lemma GiveConserved(last: nat, places: Places, ended: map<nat, Outcome>, moving: set<nat>)
    requires Conserved(last, places, ended, moving)
    ensures last + 1 !in places && last + 1 !in ended && last + 1 !in moving
    ensures Conserved(last + 1, places, ended, moving + {last + 1})
  {
  }

  lemma MoreFollows(byId: Batches, places: Places, ended: map<nat, Outcome>, follows: set<nat>, told: map<nat, bool>, n: nat)
    requires Followed(byId, places, ended, follows, told) && n !in places && n !in ended
    ensures Followed(byId, places, ended, follows + {n}, told)
  {
    hide FollowedAt;
  }

  lemma GiveNumberOk(k: Books, followed: bool)
    requires BooksOk(k)
    ensures BooksOk(GiveNumber(k, followed))
    ensures k.last + 1 !in k.log.moving
  {
    hide Conserved, EndsOk, Placed, BatchOk, Followed, OneSide;
    GiveConserved(k.last, k.log.places, k.log.ended, k.log.moving);
    MoreFollows(k.byId, k.log.places, k.log.ended, k.log.follows, k.log.told, k.last + 1);
  }

  lemma GiveNumberRecords(k: Books, records: seq<Record>, i: nat)
    requires RecordsOk(k, records) && i < |records| && records[i].number == 0
    requires k.last + 1 !in k.log.moving && k.last + 1 !in k.log.follows && forall m :: m in k.marks ==> m <= k.last
    ensures RecordsOk(GiveNumber(k, records[i].followed), records[i := records[i].(number := k.last + 1)])
  {
  }

  /** The batch of the messages `records`, all numbered, as it begins to wait. */
  ghost predicate BatchOf(b: Batch, records: seq<Record>) {
    && |records| == b.count > 0
    && (b.numbers == [] || |b.numbers| == b.count)
    && (forall i :: 0 <= i < |records| ==> b.Number(i) == records[i].number)
    && (forall i: nat :: i in b.followed <==> i < |records| && records[i].followed)
    && |b.resolved| == b.count && (forall i :: 0 <= i < b.count ==> !b.resolved[i])
    && b.unresolved == b.count
    && b.runKeys == [] && !b.written && b.due == NEVER && b.retryAt == NEVER
  }

  ghost predicate Ready(k: Books, records: seq<Record>) {
    RecordsOk(k, records) && forall i :: 0 <= i < |records| ==> records[i].number != 0
  }

  /** The first `count` messages placed in batch `id`. */
  function PlaceAll(places: Places, id: Id, records: seq<Record>, count: nat): Places
    requires count <= |records|
  {
    if count == 0 then places
    else PlaceAll(places, id, records, count - 1)[records[count - 1].number := Slot(id, count - 1)]
  }

  function NumbersOf(records: seq<Record>, count: nat): set<nat>
    requires count <= |records|
  {
    if count == 0 then {} else NumbersOf(records, count - 1) + {records[count - 1].number}
  }

  lemma {:induction false} NumbersMember(records: seq<Record>, count: nat, n: nat)
    requires count <= |records|
    ensures n in NumbersOf(records, count) <==> exists i :: 0 <= i < count && records[i].number == n
  {
    if count > 0 {
      NumbersMember(records, count - 1, n);
    }
  }

  ghost predicate Distinct(records: seq<Record>) {
    forall i, j :: 0 <= i < j < |records| ==> records[i].number != records[j].number
  }

  ghost predicate Absent(places: Places, records: seq<Record>) {
    forall i :: 0 <= i < |records| ==> records[i].number !in places
  }

  /** The messages placed in batch `id`, each in its slot. */
  ghost predicate PlacedIn(places: Places, after: Places, id: Id, records: seq<Record>, count: nat)
    requires count <= |records|
  {
    && |after| == |places| + count
    && (forall n :: n in after <==> n in places || n in NumbersOf(records, count))
    && (forall n :: n in places ==> after[n] == places[n])
    && (forall i :: 0 <= i < count ==> records[i].number in after && after[records[i].number] == Slot(id, i))
  }

  lemma NumbersNext(records: seq<Record>, at: nat)
    requires at < |records| && Distinct(records)
    ensures NumbersOf(records, at + 1) == NumbersOf(records, at) + {records[at].number}
    ensures records[at].number !in NumbersOf(records, at)
  {
    NumbersMember(records, at, records[at].number);
  }

  lemma AbsentAt(places: Places, records: seq<Record>, at: nat)
    requires at < |records| && Absent(places, records)
    ensures records[at].number !in places
  {
  }

  lemma DistinctAt(records: seq<Record>, i: nat, j: nat)
    requires i < j < |records| && Distinct(records)
    ensures records[i].number != records[j].number
  {
  }

  lemma PlaceNext(places: Places, before: Places, id: Id, records: seq<Record>, at: nat)
    requires at < |records| && Absent(places, records) && Distinct(records)
    requires PlacedIn(places, before, id, records, at)
    ensures PlacedIn(places, before[records[at].number := Slot(id, at)], id, records, at + 1)
  {
    hide NumbersOf, Distinct, Absent;
    NumbersNext(records, at);
    var n, after := records[at].number, before[records[at].number := Slot(id, at)];
    AbsentAt(places, records, at);
    assert n !in before;
    PlacedMany(before, n, Slot(id, at));
    forall i | 0 <= i < at + 1 ensures records[i].number in after && after[records[i].number] == Slot(id, i) {
      if i < at {
        DistinctAt(records, i, at);
      }
    }
  }

  lemma PlacedMany(before: Places, n: nat, slot: Slot)
    requires n !in before
    ensures |before[n := slot]| == |before| + 1
  {
    assert before[n := slot].Keys == before.Keys + {n};
  }

  lemma PlacedNone(places: Places, id: Id, records: seq<Record>)
    ensures PlacedIn(places, places, id, records, 0)
  {
  }

  lemma {:induction false} PlacedAll(places: Places, id: Id, records: seq<Record>, count: nat)
    requires count <= |records| && Absent(places, records) && Distinct(records)
    ensures PlacedIn(places, PlaceAll(places, id, records, count), id, records, count)
  {
    hide Absent, Distinct, PlacedIn, NumbersOf;
    if count == 0 {
      PlacedNone(places, id, records);
    } else {
      PlacedAll(places, id, records, count - 1);
      PlaceNext(places, PlaceAll(places, id, records, count - 1), id, records, count - 1);
    }
  }

  function Wait(k: Books, id: Id, b: Batch, records: seq<Record>): Books {
    k.(byId := k.byId[id := b],
       unconfirmed := k.unconfirmed + |records|,
       usedIds := k.usedIds + {id},
       log := k.log.(places := PlaceAll(k.log.places, id, records, |records|),
                     moving := k.log.moving - NumbersOf(records, |records|)))
  }

  lemma WaitPlaced(byId: Batches, places: Places, after: Places, id: Id, b: Batch, records: seq<Record>)
    requires Placed(byId, places) && id !in byId && BatchOf(b, records)
    requires PlacedIn(places, after, id, records, |records|)
    ensures Placed(byId[id := b], after)
  {
    hide Clear, NumbersOf;
    var byId' := byId[id := b];
    forall n | n in after
      ensures Open(byId', after[n]) && NumberAt(byId', after[n]) == n
    {
      NumbersMember(records, |records|, n);
    }
    forall s | Open(byId', s)
      ensures NumberAt(byId', s) in after && after[NumberAt(byId', s)] == s
    {
      if s.id != id {
        assert Open(byId, s);
      }
    }
  }

  lemma WaitFollowed(byId: Batches, places: Places, after: Places, ended: map<nat, Outcome>, follows: set<nat>,
                     told: map<nat, bool>, id: Id, b: Batch, records: seq<Record>)
    requires Followed(byId, places, ended, follows, told) && Placed(byId, places)
    requires id !in byId && BatchOf(b, records)
    requires PlacedIn(places, after, id, records, |records|)
    requires forall i :: 0 <= i < |records| ==> (records[i].number in follows <==> records[i].followed)
    ensures Followed(byId[id := b], after, ended, follows, told)
  {
    hide Clear, NumbersOf;
    forall n | n in after
      ensures n in follows <==> FollowedAt(byId[id := b], after[n])
    {
      NumbersMember(records, |records|, n);
      if n in places {
        assert Open(byId, places[n]);
      }
    }
  }

  lemma WaitConserved(last: nat, places: Places, after: Places, ended: map<nat, Outcome>, moving: set<nat>, id: Id, records: seq<Record>)
    requires Conserved(last, places, ended, moving)
    requires PlacedIn(places, after, id, records, |records|)
    requires forall i :: 0 <= i < |records| ==> records[i].number in moving
    ensures Conserved(last, after, ended, moving - NumbersOf(records, |records|))
  {
    hide NumbersOf;
    forall n | n in NumbersOf(records, |records|)
      ensures n in moving
    {
      NumbersMember(records, |records|, n);
    }
  }

  lemma ReadyRecords(k: Books, records: seq<Record>)
    requires BooksOk(k) && Ready(k, records)
    ensures Absent(k.log.places, records) && Distinct(records)
  {
  }

  lemma FreshBatchOk(b: Batch, records: seq<Record>)
    requires BatchOf(b, records)
    ensures BatchOk(b)
  {
    ClearAll(b.resolved);
  }

  lemma ReadyBelow(k: Books, records: seq<Record>)
    requires BooksOk(k) && Ready(k, records)
    ensures forall i :: 0 <= i < |records| ==> 0 < records[i].number <= k.last
  {
    hide EndsOk, BatchesOk, Placed, Followed, MarksOk, SameSide;
  }

  lemma WaitMarks(last: nat, byId: Batches, marks: set<nat>, id: Id, b: Batch, records: seq<Record>)
    requires MarksOk(last, byId, marks) && BatchOf(b, records) && SameSide(records, marks)
    requires forall i :: 0 <= i < |records| ==> 0 < records[i].number <= last
    ensures MarksOk(last, byId[id := b], marks)
  {
    assert Below(b, last) by {
      forall i: nat | i < b.count ensures b.Number(i) <= last {
        assert b.Number(i) == records[i].number;
      }
    }
    forall m, i: nat, j: nat | m in marks && i < b.count && j < b.count && b.Number(i) <= m ensures b.Number(j) <= m {
      assert 0 < records[i].number <= m;
      assert b.Number(j) == records[j].number;
    }
    hide OneSide;
  }

  lemma WaitOk(k: Books, id: Id, b: Batch, records: seq<Record>)
    requires BooksOk(k) && Ready(k, records) && id !in k.usedIds && BatchOf(b, records)
    ensures BooksOk(Wait(k, id, b, records))
  {
    hide EndsOk, BatchOk, Placed, Followed, Conserved, PlaceAll, NumbersOf, BatchOf, Absent, Distinct, MarksOk, SameSide;
    var after := PlaceAll(k.log.places, id, records, |records|);
    ReadyBelow(k, records);
    WaitMarks(k.last, k.byId, k.marks, id, b, records);
    FreshBatchOk(b, records);
    ReadyRecords(k, records);
    PlacedAll(k.log.places, id, records, |records|);
    WaitPlaced(k.byId, k.log.places, after, id, b, records);
    WaitFollowed(k.byId, k.log.places, after, k.log.ended, k.log.follows, k.log.told, id, b, records);
    WaitConserved(k.last, k.log.places, after, k.log.ended, k.log.moving, id, records);
  }

  /** A message no frame could hold, given up on. */
  function EndMoving(k: Books, record: Record, outcome: Outcome): Books {
    k.(ends := if record.followed then k.ends + [(record.number, outcome.Processed?)] else k.ends,
       log := k.log.(moving := k.log.moving - {record.number},
                     ended := k.log.ended[record.number := outcome],
                     told := if record.followed then k.log.told[record.number := outcome.Processed?] else k.log.told))
  }

  lemma EndMovingFollowed(byId: Batches, places: Places, ended: map<nat, Outcome>, follows: set<nat>, told: map<nat, bool>,
                          n: nat, outcome: Outcome)
    requires Followed(byId, places, ended, follows, told) && n !in places && n !in ended
    ensures Followed(byId, places, ended[n := outcome], follows, if n in follows then told[n := outcome.Processed?] else told)
    ensures n !in told
  {
    hide FollowedAt;
  }

  lemma EndMovingConserved(last: nat, places: Places, ended: map<nat, Outcome>, moving: set<nat>, n: nat, outcome: Outcome)
    requires Conserved(last, places, ended, moving) && n in moving
    ensures n !in places && n !in ended
    ensures Conserved(last, places, ended[n := outcome], moving - {n})
  {
  }

  lemma EndMovingOk(k: Books, record: Record, outcome: Outcome)
    requires BooksOk(k) && record.number in k.log.moving && (record.number in k.log.follows <==> record.followed)
    ensures BooksOk(EndMoving(k, record, outcome))
  {
    hide EndsOk, BatchOk, Placed, Followed, Conserved;
    EndMovingConserved(k.last, k.log.places, k.log.ended, k.log.moving, record.number, outcome);
    EndMovingFollowed(k.byId, k.log.places, k.log.ended, k.log.follows, k.log.told, record.number, outcome);
    if record.followed {
      ToldEnds(k.ends, k.log.told, k.log.ran, record.number, outcome.Processed?);
    }
  }

  lemma WaitIndexed(runs: Runs, byId: Batches, places: Places, after: Places, ended: map<nat, Outcome>, id: Id, b: Batch,
                    records: seq<Record>)
    requires Indexed(runs, byId, places, ended, {}) && id !in byId
    requires PlacedIn(places, after, id, records, |records|)
    ensures Indexed(runs, byId[id := b], after, ended, {id})
  {
    hide NumbersOf, RunOk, Holds;
    forall n | n in after && after[n].id != id
      ensures exists k :: k in runs && Holds(runs[k], k, n, after[n])
    {
      NumbersMember(records, |records|, n);
      assert n in places;
    }
  }

  lemma WaitDue(byId: Batches, byDue: set<(Time, Id)>, id: Id, b: Batch)
    requires DueIndexed(byId, byDue) && DueCurrent(byId, {}) && id !in byId && b.due == NEVER
    ensures DueIndexed(byId[id := b], byDue) && DueCurrent(byId[id := b], {id})
  {
  }

  lemma KeysDue(byId: Batches, byDue: set<(Time, Id)>, stale: set<Id>, id: Id, keys: seq<nat>)
    requires DueIndexed(byId, byDue) && DueCurrent(byId, stale) && id in byId
    ensures DueIndexed(byId[id := byId[id].(runKeys := keys)], byDue)
    ensures DueCurrent(byId[id := byId[id].(runKeys := keys)], stale)
  {
  }

  // What sending a batch's messages may change

  ghost predicate MadeBy(b: Batch, id: Id, terms: Terms) {
    && b.deadline == terms.deadline && b.retryAfter == terms.retryAfter && b.backoff == terms.backoff
    && b.placedOn == terms.goesBy(id) && !b.written && b.retryAt == NEVER
  }

  ghost predicate NewBatches(byId: Batches, byId': Batches, usedIds: set<Id>, terms: Terms) {
    && (forall id :: id in byId ==> id in byId' && byId'[id] == byId[id])
    && (forall id :: id in byId' && id !in byId ==>
          id !in usedIds && 0 < byId'[id].unresolved && byId'[id].due == byId'[id].deadline && MadeBy(byId'[id], id, terms))
  }

  /** What ended since ended so. */
  ghost predicate OnlyEnded(ended: map<nat, Outcome>, ended': map<nat, Outcome>, outcome: Outcome) {
    && StillEnded(ended, ended')
    && (forall n :: n in ended' && n !in ended ==> ended'[n] == outcome)
  }

  /** Sending leaves what waits as it is, makes batches under fresh ids, and
      gives up on what no frame can hold. */
  ghost predicate Sending(k: Books, k': Books, terms: Terms) {
    && k.last <= k'.last
    && k.usedIds <= k'.usedIds
    && NewBatches(k.byId, k'.byId, k.usedIds, terms)
    && Fewer(k'.log.places, k.log.places)
    && OnlyEnded(k.log.ended, k'.log.ended, Unsendable)
    && (forall n :: n <= k.last ==> (n in k'.log.follows <==> n in k.log.follows))
  }

  lemma SendingNone(k: Books, terms: Terms)
    ensures Sending(k, k, terms)
  {
  }

  lemma MarkedSending(k: Books, k': Books, terms: Terms)
    requires Sending(k, k', terms)
    ensures Sending(k, k'.(marks := k'.marks + {k'.last}), terms)
  {
  }

  lemma SendingTrans(k: Books, k': Books, k'': Books, terms: Terms)
    requires Sending(k, k', terms) && Sending(k', k'', terms)
    ensures Sending(k, k'', terms)
  {
  }

  /** Every number on its way is of a message of `rest`. */
  ghost predicate MovingIn(moving: set<nat>, rest: seq<Record>) {
    forall n :: n in moving ==> exists i :: 0 <= i < |rest| && rest[i].number == n
  }

  lemma MovingDropped(moving: set<nat>, rest: seq<Record>, count: nat)
    requires count <= |rest| && MovingIn(moving, rest)
    ensures MovingIn(moving - NumbersOf(rest[..count], count), rest[count..])
  {
    hide NumbersOf;
    forall n | n in moving - NumbersOf(rest[..count], count)
      ensures exists i :: 0 <= i < |rest[count..]| && rest[count..][i].number == n
    {
      NumbersMember(rest[..count], count, n);
      var i :| 0 <= i < |rest| && rest[i].number == n;
      assert forall j :: 0 <= j < count ==> rest[..count][j] == rest[j];
      assert rest[count..][i - count].number == n;
    }
  }

  lemma ReadyPart(k: Books, rest: seq<Record>, count: nat)
    requires Ready(k, rest) && count <= |rest|
    ensures Ready(k, rest[..count])
  {
  }

  lemma ReadyLeft(k: Books, k': Books, rest: seq<Record>, count: nat)
    requires Ready(k, rest) && count <= |rest|
    requires k'.log.moving == k.log.moving - NumbersOf(rest[..count], count)
    requires k'.log.follows == k.log.follows && k'.marks == k.marks
    ensures Ready(k', rest[count..])
  {
    hide NumbersOf;
    var left := rest[count..];
    forall i | 0 <= i < |left|
      ensures left[i].number in k'.log.moving
    {
      assert left[i] == rest[count + i];
      NumbersMember(rest[..count], count, left[i].number);
    }
  }

  lemma MovingNumbered(moving: set<nat>, rest: seq<Record>, i: nat, n: nat)
    requires MovingIn(moving, rest) && i < |rest| && rest[i].number == 0 && 0 !in moving
    ensures MovingIn(moving + {n}, rest[i := rest[i].(number := n)])
  {
    var rest' := rest[i := rest[i].(number := n)];
    forall m | m in moving + {n}
      ensures exists j :: 0 <= j < |rest'| && rest'[j].number == m
    {
      if m == n {
        assert rest'[i].number == m;
      } else {
        var j :| 0 <= j < |rest| && rest[j].number == m;
        assert rest'[j].number == m;
      }
    }
  }

  /** One more number given, as the numbering of a batch does. */
  lemma NextNumber(k: Books, records: seq<Record>, i: nat, terms: Terms)
    requires BooksOk(k) && RecordsOk(k, records) && i < |records| && records[i].number == 0
    ensures var k' := GiveNumber(k, records[i].followed);
            && BooksOk(k')
            && RecordsOk(k', records[i := records[i].(number := k.last + 1)])
            && Sending(k, k', terms)
            && k'.last == k.last + 1
            && k'.log == k.log.(moving := k.log.moving + {k.last + 1}, follows := k'.log.follows)
            && k' == k.(last := k.last + 1, log := k'.log)
    ensures 0 !in k.log.moving
  {
    GiveNumberOk(k, records[i].followed);
    GiveNumberRecords(k, records, i);
  }

  lemma FreshIdExists(used: set<Id>) returns (id: Id)
    ensures id !in used
  {
    var bound := Bound(used);
    id := bound;
  }

  /** A bound on a set of ids. */
  ghost function Bound(used: set<Id>): (bound: nat)
    ensures forall id :: id in used ==> id < bound
  {
    if used == {} then 0
    else
      var id :| id in used;
      var rest := Bound(used - {id});
      assert forall other :: other in used ==> other == id || other in used - {id};
      if rest <= id then id + 1 else rest
  }

  lemma WaitSending(k: Books, id: Id, b: Batch, c: Batch, records: seq<Record>, k': Books, terms: Terms)
    requires BooksOk(k) && Ready(k, records) && id !in k.usedIds && BatchOf(b, records) && MadeBy(b, id, terms)
    requires c == b.(runKeys := c.runKeys, due := b.deadline)
    requires k' == Wait(k, id, b, records).(byId := k.byId[id := c])
    ensures Sending(k, k', terms)
  {
    hide EndsOk, BatchOk, Placed, Followed, PlaceAll, NumbersOf, Absent, Distinct, Conserved;
    ReadyRecords(k, records);
    PlacedAll(k.log.places, id, records, |records|);
  }

  lemma WaitParts(k: Books, id: Id, b: Batch, records: seq<Record>)
    requires BooksOk(k) && Ready(k, records) && id !in k.usedIds
    ensures id !in k.byId
    ensures PlacedIn(k.log.places, PlaceAll(k.log.places, id, records, |records|), id, records, |records|)
  {
    hide EndsOk, BatchOk, Placed, Followed, PlaceAll, NumbersOf, Absent, Distinct, Conserved, PlacedIn;
    ReadyRecords(k, records);
    PlacedAll(k.log.places, id, records, |records|);
  }

  lemma FreshTimes(b: Batch, records: seq<Record>)
    requires BatchOf(b, records)
    ensures !b.written && b.due == NEVER && b.runKeys == [] && |records| == b.count > 0
  {
  }

  lemma ReadyOne(k: Books, records: seq<Record>, i: nat)
    requires Ready(k, records) && i < |records|
    ensures records[i].number in k.log.moving && (records[i].number in k.log.follows <==> records[i].followed)
  {
  }

  lemma CannotSending(k: Books, record: Record, terms: Terms)
    requires BooksOk(k) && record.number in k.log.moving
    ensures Sending(k, EndMoving(k, record, Unsendable), terms)
  {
    hide EndsOk, BatchesOk, Placed, Followed;
  }

  /** Messages left on their way as those before them are ended. */
  lemma ReadyNext(k: Books, record: Record, outcome: Outcome, rest: seq<Record>)
    requires Ready(k, [record] + rest)
    ensures Ready(EndMoving(k, record, outcome), rest)
  {
    var all := [record] + rest;
    assert all[0] == record;
    assert forall i :: 0 <= i < |rest| ==> rest[i] == all[i + 1];
  }

  lemma EndedOnes(moving: set<nat>, records: seq<Record>, i: nat)
    requires i < |records|
    ensures (moving - NumbersOf(records, i)) - {records[i].number} == moving - NumbersOf(records, i + 1)
  {
  }

  lemma NoneMoving(moving: set<nat>)
    requires MovingIn(moving, [])
    ensures moving == {}
  {
  }

  lemma ReadyIsRecords(k: Books, records: seq<Record>)
    requires Ready(k, records)
    ensures RecordsOk(k, records)
  {
  }

  lemma SendingIndexed(runs: Runs, byId: Batches, places: Places, ended: map<nat, Outcome>, ended': map<nat, Outcome>)
    requires Indexed(runs, byId, places, ended, {}) && StillEnded(ended, ended')
    ensures Indexed(runs, byId, places, ended', {})
  {
    hide Clear;
    forall k | k in runs && runs[k].batch in byId
      ensures RunOk(k, runs[k], byId[runs[k].batch], ended')
    {
      assert RunOk(k, runs[k], byId[runs[k].batch], ended);
    }
  }

  lemma NoNumbers(moving: set<nat>, records: seq<Record>)
    ensures moving - NumbersOf(records, 0) == moving
  {
  }

  lemma NotEndedYet(k: Books, record: Record)
    requires BooksOk(k) && record.number in k.log.moving
    ensures record.number !in k.log.ended
    ensures StillEnded(k.log.ended, k.log.ended[record.number := Unsendable])
  {
    hide EndsOk, BatchesOk, Placed, Followed;
  }

  // Sending messages again

  /** From `k` to `k'`, messages of batch `id`, none but those at `done`, were
      taken out or ended with `outcome`, and none of those is left. */
  ghost predicate Taking(k: Books, k': Books, id: Id, done: seq<nat>, outcome: Outcome) {
    && id in k.byId && id in k'.byId
    && k'.byId == k.byId[id := k'.byId[id]] && SameButFlags(k.byId[id], k'.byId[id])
    && |k'.byId[id].resolved| == |k.byId[id].resolved|
    && k'.last == k.last && k'.usedIds == k.usedIds && k'.log.follows == k.log.follows
    && Fewer(k.log.places, k'.log.places)
    && OnlyEnded(k.log.ended, k'.log.ended, outcome)
    && (forall n :: n in k.log.places && n !in k'.log.places ==> k.log.places[n].id == id && k.log.places[n].index in done)
    && (forall i :: i in done ==> i < |k'.byId[id].resolved| && k'.byId[id].resolved[i])
    && (forall i :: 0 <= i < |k.byId[id].resolved| && k.byId[id].resolved[i] ==> k'.byId[id].resolved[i])
  }

  lemma TakingNone(k: Books, id: Id, outcome: Outcome)
    requires id in k.byId
    ensures Taking(k, k, id, [], outcome)
  {
    assert k.byId == k.byId[id := k.byId[id]];
  }

  lemma TakenAlready(k: Books, k': Books, id: Id, done: seq<nat>, index: nat, outcome: Outcome)
    requires Taking(k, k', id, done, outcome) && index < |k'.byId[id].resolved| && k'.byId[id].resolved[index]
    ensures Taking(k, k', id, done + [index], outcome)
  {
  }

  lemma TakenOne(k: Books, k': Books, k'': Books, id: Id, done: seq<nat>, index: nat, outcome: Outcome)
    requires Taking(k, k', id, done, outcome) && index < |k'.byId[id].resolved|
    requires k''.byId == k'.byId[id := k'.byId[id].(resolved := k'.byId[id].resolved[index := true], unresolved := k'.byId[id].unresolved - 1)]
    requires k''.last == k'.last && k''.usedIds == k'.usedIds && k''.log.follows == k'.log.follows
    requires var n := k'.byId[id].Number(index);
             && n in k'.log.places && k'.log.places[n] == Slot(id, index)
             && k''.log.places == k'.log.places - {n}
             && n !in k'.log.ended
             && (k''.log.ended == k'.log.ended || k''.log.ended == k'.log.ended[n := outcome])
    ensures Taking(k, k'', id, done + [index], outcome)
  {
    assert k.byId[id := k'.byId[id]][id := k''.byId[id]] == k.byId[id := k''.byId[id]];
  }

  lemma TakenOut(k: Books, k': Books, id: Id, done: seq<nat>, index: nat, outcome: Outcome)
    requires BooksOk(k') && Taking(k, k', id, done, outcome)
    requires id in k'.byId && index < |k'.byId[id].resolved| && !k'.byId[id].resolved[index]
    ensures Taking(k, MoveAt(k', id, index), id, done + [index], outcome)
    ensures BooksOk(MoveAt(k', id, index))
  {
    hide BooksOk, BatchOk, Taking;
    BatchIsOk(k', id);
    OpenSlot(k', id, index);
    MoveAtOk(k', id, index);
    TakenOne(k, k', MoveAt(k', id, index), id, done, index, outcome);
  }

  lemma TakenEnded(k: Books, k': Books, id: Id, done: seq<nat>, index: nat, outcome: Outcome)
    requires BooksOk(k') && Taking(k, k', id, done, outcome)
    requires id in k'.byId && index < |k'.byId[id].resolved| && !k'.byId[id].resolved[index]
    ensures Taking(k, ResolveAt(k', id, index, outcome), id, done + [index], outcome)
  {
    hide BooksOk, BatchOk, Taking;
    OpenSlot(k', id, index);
    TakenOne(k, k', ResolveAt(k', id, index, outcome), id, done, index, outcome);
  }

  /** Messages out of one batch. */
  ghost predicate Within(records: seq<Record>, b: Batch) {
    forall r :: 0 <= r < |records| ==> exists i: nat :: i < b.count && b.Number(i) == records[r].number
  }

  lemma WithinSide(k: Books, id: Id, index: nat, records: seq<Record>)
    requires BooksOk(k) && id in k.byId && index < |k.byId[id].resolved| && Within(records, k.byId[id])
    requires k.byId[id].Number(index) != 0 && forall r :: 0 <= r < |records| ==> records[r].number != 0
    ensures var b := k.byId[id];
            var more := records + [Record(b.Number(index), index in b.followed)];
            SameSide(more, k.marks) && Within(more, MoveAt(k, id, index).byId[id])
  {
    var b, c := k.byId[id], MoveAt(k, id, index).byId[id];
    var more := records + [Record(b.Number(index), index in b.followed)];
    BatchIsOk(k, id);
    assert OneSide(b, k.marks);
    hide BooksOk, MarksOk;
    assert |b.resolved| == b.count;
    assert forall i: nat :: c.Number(i) == b.Number(i);
    forall r | 0 <= r < |more| ensures exists i: nat :: i < b.count && b.Number(i) == more[r].number {
      if r == |records| {
        assert b.Number(index) == more[r].number;
      }
    }
    assert Within(more, b);
    WithinBatch(b, k.marks, more);
  }

  lemma WithinBatch(b: Batch, marks: set<nat>, records: seq<Record>)
    requires OneSide(b, marks) && Within(records, b) && forall r :: 0 <= r < |records| ==> records[r].number != 0
    ensures SameSide(records, marks)
  {
  }

  lemma NotMoving(k: Books, n: nat)
    requires BooksOk(k) && n in k.log.places
    ensures n !in k.log.moving && n != 0
  {
    hide EndsOk, BatchesOk, Placed, Followed, MarksOk;
  }

  /** One more message on its way. */
  lemma RecordTaken(k: Books, id: Id, index: nat, records: seq<Record>)
    requires BooksOk(k) && Open(k.byId, Slot(id, index)) && id in k.byId && index < |k.byId[id].resolved|
    requires Ready(k, records) && MovingIn(k.log.moving, records) && Within(records, k.byId[id])
    ensures var b := k.byId[id];
            var more := records + [Record(b.Number(index), index in b.followed)];
            && Ready(MoveAt(k, id, index), more) && MovingIn(MoveAt(k, id, index).log.moving, more)
            && Within(more, MoveAt(k, id, index).byId[id])
  {
    hide BooksOk, Open, SameSide, Within, MovingIn;
    OpenSlot(k, id, index);
    var b := k.byId[id];
    var n := b.Number(index);
    NotMoving(k, n);
    WithinSide(k, id, index, records);
    MovingMore(k.log.moving, records, Record(n, index in b.followed));
  }

  lemma MovingMore(moving: set<nat>, records: seq<Record>, record: Record)
    requires MovingIn(moving, records)
    ensures MovingIn(moving + {record.number}, records + [record])
  {
    var more := records + [record];
    assert more[|records|] == record;
    forall m | m in moving + {record.number}
      ensures exists i :: 0 <= i < |more| && more[i].number == m
    {
      if m != record.number {
        var i :| 0 <= i < |records| && records[i].number == m;
        assert more[i].number == m;
      }
    }
  }
}
