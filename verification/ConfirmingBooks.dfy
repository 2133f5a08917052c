/** The books of confirmed sends: one value of everything the operations keep true
    of each other at every step, and the changes of a single batch. */
module ConfirmingBooks {
  import opened Flags
  import opened Confirming

  /** What became of the numbers given, for the statements: where each one
      waited for is held, which ended and how, which are on their way to another
      batch, which someone follows, what was told of these, and whose ends ran. */
  datatype Log = Log(
    places: Places,
    ended: map<nat, Outcome>,
    moving: set<nat>,
    follows: set<nat>,
    told: map<nat, bool>,
    ran: set<nat>)

  /** The last number given, the batches waiting, the count of messages they
      hold unresolved, the ends to be run, the envelope ids drawn, and the marks
      a flush may have taken: the last number given, between operations. */
  datatype Books = Books(
    last: nat,
    byId: Batches,
    unconfirmed: int,
    ends: seq<(nat, bool)>,
    usedIds: set<Id>,
    marks: set<nat>,
    log: Log)

  /** No mark lies among a batch's numbers. */
  ghost predicate OneSide(b: Batch, marks: set<nat>) {
    forall m, i: nat, j: nat :: m in marks && i < b.count && j < b.count && b.Number(i) <= m ==> b.Number(j) <= m
  }

  ghost predicate Below(b: Batch, last: nat) {
    forall i: nat :: i < b.count ==> b.Number(i) <= last
  }

  ghost predicate MarksOk(last: nat, byId: Batches, marks: set<nat>) {
    && (forall m :: m in marks ==> m <= last)
    && (forall id :: id in byId ==> OneSide(byId[id], marks) && Below(byId[id], last))
  }

  ghost predicate SameNumbers(b: Batch, c: Batch) {
    b.count == c.count && b.first == c.first && b.numbers == c.numbers
  }

  lemma SideKept(b: Batch, c: Batch, marks: set<nat>, last: nat)
    requires OneSide(b, marks) && Below(b, last) && SameNumbers(b, c)
    ensures OneSide(c, marks) && Below(c, last)
  {
    assert forall i: nat :: c.Number(i) == b.Number(i);
  }

  lemma MarksKept(last: nat, byId: Batches, byId': Batches, marks: set<nat>)
    requires MarksOk(last, byId, marks)
    requires forall id :: id in byId' ==> id in byId && SameNumbers(byId[id], byId'[id])
    ensures MarksOk(last, byId', marks)
  {
    hide OneSide, Below, SameNumbers;
    forall id | id in byId' ensures OneSide(byId'[id], marks) && Below(byId'[id], last) {
      SideKept(byId[id], byId'[id], marks, last);
    }
  }

  /** The last number given is a mark once the operation is over. */
  lemma MarkLast(k: Books)
    requires BooksOk(k)
    ensures BooksOk(k.(marks := k.marks + {k.last}))
  {
    hide EndsOk, Conserved, Clear, Placed, BatchesOk, Followed;
  }

  ghost predicate BooksOk(k: Books) {
    && BatchesOk(k.byId)
    && k.byId.Keys <= k.usedIds
    && Placed(k.byId, k.log.places)
    && k.unconfirmed == |k.log.places|
    && Conserved(k.last, k.log.places, k.log.ended, k.log.moving)
    && Followed(k.byId, k.log.places, k.log.ended, k.log.follows, k.log.told)
    && (forall n :: n in k.log.follows ==> 1 <= n <= k.last)
    && EndsOk(k.ends, k.log.told, k.log.ran)
    && MarksOk(k.last, k.byId, k.marks)
  }

  lemma OpenSlot(k: Books, id: Id, index: nat)
    requires BooksOk(k) && Open(k.byId, Slot(id, index))
    ensures var n := k.byId[id].Number(index);
            && n in k.log.places && k.log.places[n] == Slot(id, index)
            && n !in k.log.ended && n !in k.log.told
            && (n in k.log.follows <==> index in k.byId[id].followed)
  {
    hide EndsOk;
    assert NumberAt(k.byId, Slot(id, index)) in k.log.places;
  }

  /** One message resolved, unless it was: it ends with `outcome`, and who
      follows it is told. */
  function ResolveAt(k: Books, id: Id, index: nat, outcome: Outcome): Books
    requires id in k.byId && index < |k.byId[id].resolved|
  {
    var b, n := k.byId[id], k.byId[id].Number(index);
    if b.resolved[index] then
      k
    else
      k.(byId := k.byId[id := b.(resolved := b.resolved[index := true], unresolved := b.unresolved - 1)],
         unconfirmed := k.unconfirmed - 1,
         ends := if index in b.followed then k.ends + [(n, outcome.Processed?)] else k.ends,
         log := k.log.(
           places := k.log.places - {n},
           ended := k.log.ended[n := outcome],
           told := if index in b.followed then k.log.told[n := outcome.Processed?] else k.log.told))
  }

  lemma ToldEnds(ends: seq<(nat, bool)>, told: map<nat, bool>, ran: set<nat>, n: nat, processed: bool)
    requires EndsOk(ends, told, ran) && n !in told
    ensures EndsOk(ends + [(n, processed)], told[n := processed], ran)
  {
    var ends', told' := ends + [(n, processed)], told[n := processed];
    forall m | m in told'
      ensures m in ran || exists i :: 0 <= i < |ends'| && ends'[i].0 == m
    {
      if m == n {
        assert ends'[|ends|].0 == m;
      } else if m !in ran {
        var i :| 0 <= i < |ends| && ends[i].0 == m;
        assert ends'[i].0 == m;
      }
    }
  }

  lemma MarkOne(b: Batch, index: nat)
    requires BatchOk(b) && index < |b.resolved| && !b.resolved[index]
    ensures b.(resolved := b.resolved[index := true], unresolved := b.unresolved - 1) == Marked(b, index, index + 1)
    ensures BatchOk(Marked(b, index, index + 1))
  {
    OpenOne(b, index);
    MarkedOk(b, index, index + 1);
    assert Mark(b.resolved, index, index + 1) == b.resolved[index := true];
  }

  lemma EndFollowed(byId: Batches, byId': Batches, places: Places, ended: map<nat, Outcome>, follows: set<nat>,
                    told: map<nat, bool>, n: nat, outcome: Outcome)
    requires Followed(byId, places, ended, follows, told)
    requires n in places && n !in ended
    requires forall s :: FollowedAt(byId', s) <==> FollowedAt(byId, s)
    ensures Followed(byId', places - {n}, ended[n := outcome], follows, if n in follows then told[n := outcome.Processed?] else told)
  {
    hide FollowedAt;
  }

  lemma OneLessPlaced(byId: Batches, places: Places, id: Id, index: nat)
    requires Placed(byId, places) && Open(byId, Slot(id, index))
    ensures var b := byId[id];
            Placed(byId[id := b.(resolved := b.resolved[index := true], unresolved := b.unresolved - 1)], places - {b.Number(index)})
  {
    var b := byId[id];
    var byId' := byId[id := b.(resolved := b.resolved[index := true], unresolved := b.unresolved - 1)];
    forall s
      ensures Open(byId', s) <==> Open(byId, s) && s != Slot(id, index)
      ensures s.id in byId ==> NumberAt(byId', s) == NumberAt(byId, s)
    {
    }
  }

  lemma ResolveOpenOk(k: Books, id: Id, index: nat, outcome: Outcome)
    requires BooksOk(k) && Open(k.byId, Slot(id, index))
    requires id in k.byId && BatchOk(k.byId[id]) && index < |k.byId[id].resolved| && !k.byId[id].resolved[index]
    ensures BooksOk(ResolveAt(k, id, index, outcome))
  {
    hide Clear, Placed, Followed, Open, BatchOk, FollowedAt, MarksOk, Conserved, EndsOk;
    var b := k.byId[id];
    var n := b.Number(index);
    var k' := ResolveAt(k, id, index, outcome);
    MarksKept(k.last, k.byId, k'.byId, k.marks);
    OpenSlot(k, id, index);
    MarkOne(b, index);
    OneLessPlaced(k.byId, k.log.places, id, index);
    RemovedCount(k.log.places, {n});
    assert Followed(k'.byId, k'.log.places, k'.log.ended, k'.log.follows, k'.log.told) by {
      SameFollowers(k.byId, k'.byId);
      EndFollowed(k.byId, k'.byId, k.log.places, k.log.ended, k.log.follows, k.log.told, n, outcome);
    }
    if index in b.followed {
      ToldEnds(k.ends, k.log.told, k.log.ran, n, outcome.Processed?);
    }
    EndedConserved(k.last, k.log.places, k.log.ended, k.log.moving, n, outcome);
  }

  lemma EndedConserved(last: nat, places: Places, ended: map<nat, Outcome>, moving: set<nat>, n: nat, outcome: Outcome)
    requires Conserved(last, places, ended, moving) && n in places
    ensures Conserved(last, places - {n}, ended[n := outcome], moving)
  {
  }

  lemma SameFollowers(byId: Batches, byId': Batches)
    requires byId.Keys == byId'.Keys
    requires forall id :: id in byId ==> byId'[id].followed == byId[id].followed
    ensures forall s :: FollowedAt(byId', s) <==> FollowedAt(byId, s)
  {
  }

  lemma ResolveAtOk(k: Books, id: Id, index: nat, outcome: Outcome)
    requires BooksOk(k) && id in k.byId && index < |k.byId[id].resolved|
    ensures BooksOk(ResolveAt(k, id, index, outcome))
  {
    if !k.byId[id].resolved[index] {
      ResolveOpenOk(k, id, index, outcome);
    }
  }

  /** The messages of [begin, end) resolved one after the other. */
  function ResolveRange(k: Books, id: Id, begin: nat, end: nat, outcome: Outcome): (r: Books)
    requires id in k.byId && begin <= end <= |k.byId[id].resolved|
    ensures id in r.byId && |r.byId[id].resolved| == |k.byId[id].resolved|
    decreases end
  {
    if begin == end then k else ResolveAt(ResolveRange(k, id, begin, end - 1, outcome), id, end - 1, outcome)
  }

  function EndAll(ended: map<nat, Outcome>, numbers: set<nat>, outcome: Outcome): map<nat, Outcome> {
    ended + map n | n in numbers :: outcome
  }

  lemma EndOneMore(ended: map<nat, Outcome>, numbers: set<nat>, n: nat, outcome: Outcome)
    ensures EndAll(ended, numbers, outcome)[n := outcome] == EndAll(ended, numbers + {n}, outcome)
  {
  }

  /** What that comes to: the flags of the range set, its open numbers ended,
      all of them and no other, and each counter less by how many they were. */
  ghost predicate RangeResolved(k: Books, r: Books, id: Id, begin: nat, end: nat, outcome: Outcome)
    requires id in k.byId && begin <= end <= |k.byId[id].resolved|
  {
    var b, gone := k.byId[id], OpenNumbers(k.byId[id], begin, end);
    && r.byId == k.byId[id := Marked(b, begin, end)]
    && r.unconfirmed == k.unconfirmed - Clear(b.resolved[begin..end])
    && r.last == k.last && r.usedIds == k.usedIds && r.marks == k.marks
    && r.log.places == k.log.places - gone
    && r.log.ended == EndAll(k.log.ended, gone, outcome)
    && r.log.moving == k.log.moving && r.log.follows == k.log.follows && r.log.ran == k.log.ran
    && (b.followed == {} ==> r.ends == k.ends && r.log.told == k.log.told)
  }

  /** Marking a range and then the slot after it is marking both. */
  lemma MarkedStep(b: Batch, begin: nat, last: nat)
    requires BatchOk(b) && begin <= last < |b.resolved|
    ensures var c := Marked(b, begin, last);
            && c.resolved[last] == b.resolved[last]
            && Marked(b, begin, last + 1) ==
               if b.resolved[last] then c else c.(resolved := c.resolved[last := true], unresolved := c.unresolved - 1)
  {
    OpenStep(b, begin, last);
    assert Mark(b.resolved, begin, last + 1) == Mark(b.resolved, begin, last)[last := true];
    assert b.resolved[last] ==> Mark(b.resolved, begin, last + 1) == Mark(b.resolved, begin, last);
  }

  lemma MarkedNone(b: Batch, at: nat)
    requires at <= |b.resolved|
    ensures Marked(b, at, at) == b
    ensures OpenNumbers(b, at, at) == {}
    ensures Clear(b.resolved[at..at]) == 0
  {
    assert Mark(b.resolved, at, at) == b.resolved;
    assert b.resolved[at..at] == [];
  }

  lemma RangeStep(k: Books, r: Books, id: Id, begin: nat, last: nat, outcome: Outcome)
    requires id in k.byId && BatchOk(k.byId[id]) && begin <= last < |k.byId[id].resolved|
    requires RangeResolved(k, r, id, begin, last, outcome)
    ensures id in r.byId && last < |r.byId[id].resolved|
    ensures RangeResolved(k, ResolveAt(r, id, last, outcome), id, begin, last + 1, outcome)
  {
    var b := k.byId[id];
    MarkedStep(b, begin, last);
    OpenStep(b, begin, last);
    hide OpenNumbers, Clear, Mark, EndAll;
    EndOneMore(k.log.ended, OpenNumbers(b, begin, last), b.Number(last), outcome);
    assert !b.resolved[last] ==>
      (k.log.places - OpenNumbers(b, begin, last)) - {b.Number(last)} == k.log.places - OpenNumbers(b, begin, last + 1);
  }

  lemma RangeNone(k: Books, id: Id, at: nat, outcome: Outcome)
    requires id in k.byId && at <= |k.byId[id].resolved|
    ensures RangeResolved(k, k, id, at, at, outcome)
  {
    MarkedNone(k.byId[id], at);
    hide OpenNumbers, Clear, Mark, Marked;
    assert EndAll(k.log.ended, {}, outcome) == k.log.ended;
    assert k.log.places - {} == k.log.places;
    assert k.byId[id := k.byId[id]] == k.byId;
  }

  lemma BatchIsOk(k: Books, id: Id)
    requires BooksOk(k) && id in k.byId
    ensures BatchOk(k.byId[id])
  {
  }

  lemma BooksParts(k: Books, id: Id)
    requires BooksOk(k) && id in k.byId
    ensures BatchOk(k.byId[id]) && Placed(k.byId, k.log.places) && k.log.places.Keys !! k.log.ended.Keys
  {
  }

  lemma {:induction false} RangeForm(k: Books, id: Id, begin: nat, end: nat, outcome: Outcome)
    requires BooksOk(k) && id in k.byId && begin <= end <= |k.byId[id].resolved|
    ensures BooksOk(ResolveRange(k, id, begin, end, outcome))
    ensures RangeResolved(k, ResolveRange(k, id, begin, end, outcome), id, begin, end, outcome)
    decreases end
  {
    hide BooksOk, RangeResolved, BatchOk, ResolveAt;
    if begin == end {
      RangeNone(k, id, begin, outcome);
    } else {
      RangeForm(k, id, begin, end - 1, outcome);
      var r := ResolveRange(k, id, begin, end - 1, outcome);
      BatchIsOk(k, id);
      RangeStep(k, r, id, begin, end - 1, outcome);
      ResolveAtOk(r, id, end - 1, outcome);
    }
  }

  /** The message after a range is as it was. */
  lemma RangeNext(k: Books, id: Id, begin: nat, end: nat, outcome: Outcome)
    requires BooksOk(k) && id in k.byId && begin <= end < |k.byId[id].resolved|
    ensures ResolveRange(k, id, begin, end, outcome).byId[id].resolved[end] == k.byId[id].resolved[end]
    ensures Clear(k.byId[id].resolved[begin..end + 1])
         == Clear(k.byId[id].resolved[begin..end]) + if k.byId[id].resolved[end] then 0 else 1
  {
    hide BooksOk, ResolveAt, OpenNumbers, EndAll, Clear;
    RangeForm(k, id, begin, end, outcome);
    OpenStep(k.byId[id], begin, end);
  }

  // Changes of a batch that leave its messages as they are

  ghost predicate SameMessages(b: Batch, c: Batch) {
    && b.count == c.count && b.first == c.first && b.numbers == c.numbers
    && b.followed == c.followed && b.resolved == c.resolved && b.unresolved == c.unresolved
  }

  lemma SameBooks(k: Books, id: Id, c: Batch)
    requires BooksOk(k) && id in k.byId && SameMessages(k.byId[id], c)
    ensures BooksOk(k.(byId := k.byId[id := c]))
  {
    hide EndsOk, Conserved, Clear, MarksOk, Placed, Followed, FollowedAt;
    var byId' := k.byId[id := c];
    MarksKept(k.last, k.byId, byId', k.marks);
    SameFollowers(k.byId, byId');
    FollowedSame(k.byId, byId', k.log.places, k.log.ended, k.log.follows, k.log.told);
    PlacedSame(k.byId, k.log.places, id, c);
  }

  lemma FollowedSame(byId: Batches, byId': Batches, places: Places, ended: map<nat, Outcome>, follows: set<nat>,
                     told: map<nat, bool>)
    requires Followed(byId, places, ended, follows, told) && forall s :: FollowedAt(byId', s) <==> FollowedAt(byId, s)
    ensures Followed(byId', places, ended, follows, told)
  {
    hide FollowedAt;
  }

  lemma PlacedSame(byId: Batches, places: Places, id: Id, c: Batch)
    requires Placed(byId, places) && id in byId && SameMessages(byId[id], c)
    ensures Placed(byId[id := c], places)
  {
    var byId' := byId[id := c];
    assert forall s :: Open(byId', s) <==> Open(byId, s);
    assert forall s: Slot :: s.id in byId' ==> NumberAt(byId', s) == NumberAt(byId, s);
  }

  lemma SameRebuilding(runs: Runs, byId: Batches, places: Places, ended: map<nat, Outcome>, id: Id, upTo: nat, c: Batch)
    requires Rebuilding(runs, byId, places, ended, id, upTo)
    requires id in byId && SameMessages(byId[id], c)
    ensures Rebuilding(runs, byId[id := c], places, ended, id, upTo)
  {
    hide Holds, Disjoint, Clear;
    var byId' := byId[id := c];
    forall k | k in runs
      ensures RunOk(k, runs[k], byId'[runs[k].batch], ended)
    {
      var b := byId[runs[k].batch];
      assert RunOk(k, runs[k], b, ended);
      assert forall i :: byId'[runs[k].batch].Number(i) == b.Number(i);
    }
  }

  /** All of batch `id`'s slots registered: the index is whole again. */
  lemma Rebuilt(runs: Runs, byId: Batches, places: Places, ended: map<nat, Outcome>, id: Id, keys: seq<nat>)
    requires Placed(byId, places) && id in byId
    requires Rebuilding(runs, byId, places, ended, id, |byId[id].resolved|)
    requires KeysSoFar(runs, byId, id, keys)
    ensures Indexed(runs, byId[id := byId[id].(runKeys := keys)], places, ended, {})
  {
    SameRebuilding(runs, byId, places, ended, id, |byId[id].resolved|, byId[id].(runKeys := keys));
    hide Holds, Disjoint, RunsExact;
    assert Covered(runs, places, {}) by {
      forall n | n in places
        ensures exists k :: k in runs && Holds(runs[k], k, n, places[n])
      {
        assert Open(byId, places[n]);
      }
    }
  }

  lemma SameIndexed(runs: Runs, byId: Batches, places: Places, ended: map<nat, Outcome>, stale: set<Id>, id: Id, c: Batch)
    requires Indexed(runs, byId, places, ended, stale)
    requires id in byId && SameMessages(byId[id], c) && byId[id].runKeys == c.runKeys
    ensures Indexed(runs, byId[id := c], places, ended, stale)
  {
    hide Disjoint, Covered, Clear;
    var byId' := byId[id := c];
    forall k | k in runs && runs[k].batch !in stale
      ensures RunOk(k, runs[k], byId'[runs[k].batch], ended)
    {
      var b := byId[runs[k].batch];
      assert RunOk(k, runs[k], b, ended);
      assert forall i :: byId'[runs[k].batch].Number(i) == b.Number(i);
    }
  }

  // Forgetting a batch with nothing unresolved left

  lemma ForgetBooks(k: Books, id: Id)
    requires BooksOk(k) && id in k.byId && k.byId[id].unresolved == 0
    ensures BooksOk(k.(byId := k.byId - {id}))
  {
    hide EndsOk, Conserved, Clear, MarksOk;
    var byId' := k.byId - {id};
    MarksKept(k.last, k.byId, byId', k.marks);
    ClearNone(k.byId[id].resolved);
    assert forall s :: Open(byId', s) <==> Open(k.byId, s);
    assert forall n :: n in k.log.places ==> k.log.places[n].id != id;
  }

  lemma ForgetIndexed(runs: Runs, byId: Batches, places: Places, ended: map<nat, Outcome>, id: Id)
    requires Indexed(runs, byId, places, ended, {id})
    requires id in byId && Placed(byId, places) && BatchOk(byId[id]) && byId[id].unresolved == 0
    ensures Indexed(WithoutBatch(runs, id), byId - {id}, places, ended, {})
  {
    hide Clear, RunOk, Placed, BatchOk, Covered;
    NoneHeld(byId, places, id);
    CoveredWithout(runs, places, id);
  }

  lemma NoneHeld(byId: Batches, places: Places, id: Id)
    requires id in byId && Placed(byId, places) && BatchOk(byId[id]) && byId[id].unresolved == 0
    ensures forall n :: n in places ==> places[n].id != id
  {
    ClearNone(byId[id].resolved);
    hide Clear;
    forall n | n in places ensures places[n].id != id {
      assert Open(byId, places[n]);
    }
  }

  lemma CoveredWithout(runs: Runs, places: Places, id: Id)
    requires Covered(runs, places, {id}) && forall n :: n in places ==> places[n].id != id
    ensures Covered(WithoutBatch(runs, id), places, {})
  {
    var runs' := WithoutBatch(runs, id);
    forall n | n in places
      ensures exists k :: k in runs' && Holds(runs'[k], k, n, places[n])
    {
      var k :| k in runs && Holds(runs[k], k, n, places[n]);
      assert k in runs' && Holds(runs'[k], k, n, places[n]);
    }
  }

  lemma ForgetDue(byId: Batches, byDue: set<(Time, Id)>, id: Id)
    requires DueIndexed(byId, byDue) && DueCurrent(byId, {}) && id in byId
    ensures DueIndexed(byId - {id}, byDue - {(byId[id].due, id)})
    ensures DueCurrent(byId - {id}, {})
  {
  }

  lemma ChangeDue(byId: Batches, byDue: set<(Time, Id)>, id: Id, c: Batch)
    requires DueIndexed(byId, byDue) && DueCurrent(byId, {id}) && id in byId
    requires c.due == DueOf(c)
    ensures var less := byDue - {(byId[id].due, id)};
            && DueIndexed(byId[id := c], if c.due == NEVER then less else less + {(c.due, id)})
            && DueCurrent(byId[id := c], {})
  {
  }

  lemma IndexedKeys(runs: Runs, byId: Batches, places: Places, ended: map<nat, Outcome>, stale: set<Id>)
    requires Indexed(runs, byId, places, ended, stale)
    ensures KeysListed(runs, byId)
  {
  }

  // Taking messages out of a batch, to go again

  /** An open message taken out of its batch: its number is on its way. */
  function MoveAt(k: Books, id: Id, index: nat): Books
    requires id in k.byId && index < |k.byId[id].resolved|
  {
    var b, n := k.byId[id], k.byId[id].Number(index);
    k.(byId := k.byId[id := b.(resolved := b.resolved[index := true], unresolved := b.unresolved - 1)],
       unconfirmed := k.unconfirmed - 1,
       log := k.log.(places := k.log.places - {n}, moving := k.log.moving + {n}))
  }

  lemma MoveAtOk(k: Books, id: Id, index: nat)
    requires BooksOk(k) && Open(k.byId, Slot(id, index))
    requires id in k.byId && BatchOk(k.byId[id]) && index < |k.byId[id].resolved| && !k.byId[id].resolved[index]
    ensures BooksOk(MoveAt(k, id, index))
  {
    hide Clear, Placed, Followed, Open, BatchOk, FollowedAt, EndsOk, Conserved, MarksOk;
    var b := k.byId[id];
    var n := b.Number(index);
    var k' := MoveAt(k, id, index);
    MarksKept(k.last, k.byId, k'.byId, k.marks);
    OpenSlot(k, id, index);
    MarkOne(b, index);
    OneLessPlaced(k.byId, k.log.places, id, index);
    RemovedCount(k.log.places, {n});
    assert Followed(k'.byId, k'.log.places, k'.log.ended, k'.log.follows, k'.log.told) by {
      SameFollowers(k.byId, k'.byId);
      FewerFollowed(k.byId, k'.byId, k.log.places, k.log.ended, k.log.follows, k.log.told, n);
    }
    MovingConserved(k.last, k.log.places, k.log.ended, k.log.moving, n);
  }

  lemma MovingConserved(last: nat, places: Places, ended: map<nat, Outcome>, moving: set<nat>, n: nat)
    requires Conserved(last, places, ended, moving) && n in places
    ensures Conserved(last, places - {n}, ended, moving + {n})
  {
  }

  lemma FewerFollowed(byId: Batches, byId': Batches, places: Places, ended: map<nat, Outcome>, follows: set<nat>,
                      told: map<nat, bool>, n: nat)
    requires Followed(byId, places, ended, follows, told)
    requires forall s :: FollowedAt(byId', s) <==> FollowedAt(byId, s)
    ensures Followed(byId', places - {n}, ended, follows, told)
  {
    hide FollowedAt;
  }

  /** A batch that differs in its flags alone. */
  ghost predicate SameButFlags(b: Batch, c: Batch) {
    c == b.(resolved := c.resolved, unresolved := c.unresolved)
  }

  ghost predicate Fewer(places: Places, places': Places) {
    forall n :: n in places' ==> n in places && places'[n] == places[n]
  }

  ghost predicate StillEnded(ended: map<nat, Outcome>, ended': map<nat, Outcome>) {
    forall n :: n in ended ==> n in ended' && ended'[n] == ended[n]
  }

  /** While messages of batch `id` are resolved or taken out, the other batches'
      runs stay right. */
  lemma StaleIndexed(runs: Runs, byId: Batches, places: Places, ended: map<nat, Outcome>, id: Id,
                     c: Batch, places': Places, ended': map<nat, Outcome>)
    requires Indexed(runs, byId, places, ended, {id})
    requires id in byId && SameButFlags(byId[id], c) && Fewer(places, places') && StillEnded(ended, ended')
    ensures Indexed(runs, byId[id := c], places', ended', {id})
  {
    hide Clear, Disjoint;
    forall k | k in runs && runs[k].batch != id
      ensures RunOk(k, runs[k], byId[runs[k].batch], ended')
    {
      assert RunOk(k, runs[k], byId[runs[k].batch], ended);
    }
  }

  lemma MoreStale(runs: Runs, byId: Batches, places: Places, ended: map<nat, Outcome>, id: Id)
    requires Indexed(runs, byId, places, ended, {})
    ensures Indexed(runs, byId, places, ended, {id})
  {
    hide Holds, RunOk;
  }

  lemma SameDue(byId: Batches, byDue: set<(Time, Id)>, id: Id, c: Batch)
    requires DueIndexed(byId, byDue) && DueCurrent(byId, {})
    requires id in byId && c.due == byId[id].due && DueOf(c) == DueOf(byId[id])
    ensures DueIndexed(byId[id := c], byDue) && DueCurrent(byId[id := c], {})
  {
  }
}
