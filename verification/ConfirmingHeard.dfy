/** The batches a CONFIRMATION names: which of them heard of a message, and what
    becomes of each one's times and messages. */
module ConfirmingHeard {
  import opened Common
  import opened Flags
  import opened NumberPairs
  import opened Confirming
  import opened ConfirmingBooks
  import opened ConfirmingRuns
  import opened ConfirmingEnds
  import opened ConfirmingTimes

  // Which batches heard

  /** A batch that heard had a number end. */
  ghost predicate HeardOnly(k: Books, k': Books, before: set<Id>, heard: set<Id>) {
    forall id :: id in heard && id !in before ==>
      exists n :: n in k.log.places && k.log.places[n].id == id && n !in k'.log.places
  }

  lemma HeardNone(k: Books, before: set<Id>)
    ensures HeardOnly(k, k, before, before)
  {
  }

  /** A range resolved: its batch heard if a number in it was waited for. */
  lemma HeardRange(k: Books, k': Books, k'': Books, before: set<Id>, heard: set<Id>, id: Id, begin: nat, end: nat,
                   outcome: Outcome)
    requires BooksOk(k') && HeardOnly(k, k', before, heard) && Fewer(k.log.places, k'.log.places)
    requires id in k'.byId && begin <= end <= |k'.byId[id].resolved| && RangeResolved(k', k'', id, begin, end, outcome)
    ensures HeardOnly(k, k'', before, heard)
    ensures 0 < Clear(k'.byId[id].resolved[begin..end]) ==> HeardOnly(k, k'', before, heard + {id})
  {
    hide BooksOk, Clear, Marked, EndAll;
    forall n | n in k.log.places && n !in k'.log.places ensures n !in k''.log.places {
    }
    if 0 < Clear(k'.byId[id].resolved[begin..end]) {
      var i := OpenInside(k'.byId[id].resolved, begin, end);
      OpenSlot(k', id, i);
      var n := k'.byId[id].Number(i);
      assert n in OpenNumbers(k'.byId[id], begin, end);
      assert n in k.log.places && k.log.places[n].id == id && n !in k''.log.places;
    }
  }

  /** A batch holds a number waited for that a list names. */
  ghost predicate NamedIn(places: Places, id: Id, pairs: seq<U64>) {
    exists n :: n in places && places[n].id == id && Names(pairs, n)
  }

  /** The batches that heard of a list hold a number it names, all of them. */
  lemma HeardNamed(k: Books, k': Books, found: seq<Segment>, pairs: seq<U64>, outcome: Outcome, before: set<Id>,
                   heard: set<Id>, id: Id)
    requires BooksOk(k) && BooksOk(k') && SegmentsEnded(k, k', found, outcome, heard) && Exactly(k.log.places, found, pairs)
    requires before <= heard && HeardOnly(k, k', before, heard)
    ensures NamedIn(k.log.places, id, pairs) ==> id in heard
    ensures id in heard && id !in before ==> NamedIn(k.log.places, id, pairs)
  {
    hide BooksOk, Found, Names, OnlyWith;
    if id in heard && id !in before {
      var n :| n in k.log.places && k.log.places[n].id == id && n !in k'.log.places;
      assert Names(pairs, n);
    }
    if id !in heard {
      forall n | n in k.log.places && k.log.places[n].id == id ensures !Names(pairs, n) {
        SameStays(k, k', n);
      }
    }
  }

  lemma SameStays(k: Books, k': Books, n: nat)
    requires BooksOk(k) && BooksOk(k') && n in k.log.places
    requires k.log.places[n].id in k.byId && k.log.places[n].id in k'.byId ==> k'.byId[k.log.places[n].id] == k.byId[k.log.places[n].id]
    requires k'.byId.Keys == k.byId.Keys
    ensures n in k'.log.places
  {
    hide EndsOk, Followed, BatchesOk, Conserved, MarksOk;
    var slot := k.log.places[n];
    assert Open(k.byId, slot) && NumberAt(k.byId, slot) == n;
    assert Open(k'.byId, slot) && NumberAt(k'.byId, slot) == n;
  }

  /** Of two lists read one after the other, by what was waited for before both. */
  lemma HeardEither(k: Books, k1: Books, k2: Books, found: seq<Segment>, found': seq<Segment>, processed: seq<U64>,
                    failed: seq<U64>, heard: set<Id>, heard': set<Id>, id: Id)
    requires BooksOk(k) && BooksOk(k1) && BooksOk(k2) && heard <= heard'
    requires SegmentsEnded(k, k1, found, Processed, heard) && Exactly(k.log.places, found, processed)
    requires SegmentsEnded(k1, k2, found', GivenUp(Failed), heard') && Exactly(k1.log.places, found', failed)
    requires HeardOnly(k, k1, {}, heard) && HeardOnly(k1, k2, heard, heard')
    ensures id in heard' <==> NamedIn(k.log.places, id, processed) || NamedIn(k.log.places, id, failed)
  {
    hide BooksOk, Found, Names, OnlyWith, BatchesLeft;
    HeardNamed(k, k1, found, processed, Processed, {}, heard, id);
    HeardNamed(k1, k2, found', failed, GivenUp(Failed), heard, heard', id);
    if NamedIn(k.log.places, id, failed) && !NamedIn(k.log.places, id, processed) {
      var n :| n in k.log.places && k.log.places[n].id == id && Names(failed, n);
      assert n in k1.log.places;
    }
  }

  // Batches messages of which went again

  /** Batches but those of `ids` are as they were; of those only flags, set and never
      cleared, and runs differ; what is made has a new id. */
  ghost predicate ResentIn(byId: Batches, byId': Batches, ids: set<Id>, usedIds: set<Id>) {
    && Untouched(byId, byId', ids) && NewIds(byId, byId', usedIds)
    && forall j :: j in byId && j in byId' ==> MoreResolved(byId[j], byId'[j])
  }

  ghost predicate MoreResolved(b: Batch, c: Batch) {
    && SameButRuns(b, c) && |c.resolved| == |b.resolved|
    && forall i :: 0 <= i < |b.resolved| && b.resolved[i] ==> c.resolved[i]
  }

  lemma ResentInNone(byId: Batches, usedIds: set<Id>)
    ensures ResentIn(byId, byId, {}, usedIds)
  {
  }

  lemma ResentInMore(byId: Batches, byId': Batches, byId'': Batches, ids: set<Id>, usedIds: set<Id>, usedIds': set<Id>,
                     id: Id, now: Time)
    requires ResentIn(byId, byId', ids, usedIds) && ResentBatches(byId', byId'', usedIds', id, now) && usedIds <= usedIds'
    requires byId.Keys <= usedIds
    ensures ResentIn(byId, byId'', ids + {id}, usedIds)
  {
    hide SameButRuns, SentLike;
    forall j | j in byId && j in byId'' ensures MoreResolved(byId[j], byId''[j]) {
      assert j in byId';
      SameRunsTrans(byId[j], byId'[j], byId''[j]);
    }
  }

  lemma SameRunsTrans(b: Batch, c: Batch, d: Batch)
    ensures SameButRuns(b, c) && SameButRuns(c, d) ==> SameButRuns(b, d)
    ensures SameButRuns(b, b)
  {
  }

  // What becomes of each batch

  /** A batch somebody takes messages of: no back-off, and, once written, its retry time
      counted anew. */
  function HeardAt(b: Batch, now: Time): Batch {
    b.(backoff := 0, retryAt := if b.written then now + b.retryAfter else b.retryAt)
  }

  /** The batches of `heard` with nothing left gone, their others' times set, and the
      rest as they were. */
  ghost predicate Heeded(byId: Batches, byId': Batches, heard: set<Id>, now: Time) {
    && byId'.Keys <= byId.Keys
    && forall id :: id in byId ==>
         if id !in heard then id in byId' && byId'[id] == byId[id]
         else if byId[id].unresolved == 0 then id !in byId'
         else id in byId' && byId'[id] == Due(HeardAt(byId[id], now))
  }

  lemma HeededNone(byId: Batches, now: Time)
    ensures Heeded(byId, byId, {}, now)
  {
  }

  lemma HeededMore(byId: Batches, byId': Batches, byId'': Batches, heard: set<Id>, id: Id, now: Time)
    requires Heeded(byId, byId', heard, now) && id !in heard
    requires if id !in byId' then byId'' == byId'
             else byId'' == if byId'[id].unresolved == 0 then byId' - {id} else byId'[id := Due(HeardAt(byId'[id], now))]
    ensures Heeded(byId, byId'', heard + {id}, now)
  {
    hide HeardAt, Due;
  }

  /** What a CONFIRMATION makes of a batch: one none of whose numbers waited for it names
      is as it was, but for its runs; of one that is still there, only its flags and runs
      differ, and its times if a number of it was named processed or failed. */
  ghost predicate ConfirmedBatch(k: Books, k': Books, processed: seq<U64>, failed: seq<U64>, refused: seq<U64>, now: Time, id: Id)
    requires id in k.byId
  {
    var heard := NamedIn(k.log.places, id, processed) || NamedIn(k.log.places, id, failed);
    && (!heard && !NamedIn(k.log.places, id, refused) ==>
          id in k'.byId && k'.byId[id] == k.byId[id].(runKeys := k'.byId[id].runKeys))
    && (id in k'.byId ==> SameButRuns(if heard then Due(HeardAt(k.byId[id], now)) else k.byId[id], k'.byId[id]))
  }

  lemma HeardRuns(b: Batch, c: Batch, now: Time)
    requires SameButRuns(b, c)
    ensures SameButRuns(Due(HeardAt(b, now)), Due(HeardAt(c, now)))
  {
  }

  lemma FlagsRuns(b: Batch, c: Batch)
    requires SameButFlags(b, c)
    ensures SameButRuns(b, c)
  {
  }

  /** A batch still there. */
  lemma ConfirmedKept(k: Books, k1: Books, k2: Books, k3: Books, k': Books, found: seq<Segment>, found': seq<Segment>,
                      ids: set<Id>, heard: set<Id>, heard': set<Id>, now: Time, id: Id)
    requires SegmentsEnded(k, k1, found, Processed, heard) && SegmentsEnded(k1, k2, found', GivenUp(Failed), heard')
    requires ResentIn(k2.byId, k3.byId, ids, k2.usedIds) && Heeded(k3.byId, k'.byId, heard', now)
    requires id in k.byId && id in k'.byId
    ensures SameButRuns(if id in heard' then Due(HeardAt(k.byId[id], now)) else k.byId[id], k'.byId[id])
  {
    hide SameButRuns, SameButFlags, Due, HeardAt, Found, OnlyWith, Untouched, NewIds;
    var b, b1, b2, b3 := k.byId[id], k1.byId[id], k2.byId[id], k3.byId[id];
    FlagsRuns(b, b1);
    FlagsRuns(b1, b2);
    assert MoreResolved(b2, b3);
    SameRunsTrans(b, b1, b2);
    SameRunsTrans(b, b2, b3);
    SameRunsTrans(b, b2, b2);
    if id in heard' {
      HeardRuns(b, b3, now);
    }
  }

  /** A batch no list names a number of. */
  lemma ConfirmedNot(k: Books, k1: Books, k2: Books, k3: Books, k': Books, found: seq<Segment>, found': seq<Segment>,
                     groups: seq<(Id, seq<nat>)>, ids: set<Id>, heard: set<Id>, heard': set<Id>, now: Time, at: Time, id: Id)
    requires BooksOk(k) && BooksOk(k2) && BooksOk(k3) && AllHold(k.byId) && heard <= heard'
    requires SegmentsEnded(k, k1, found, Processed, heard) && SegmentsEnded(k1, k2, found', GivenUp(Failed), heard')
    requires ResentIn(k2.byId, k3.byId, ids, k2.usedIds) && ResentGroups(k2, k3, groups, at)
    requires Heeded(k3.byId, k'.byId, heard', now) && id in k.byId && id !in heard'
    requires forall n :: n in k2.log.places && k2.log.places[n].id == id ==> !Touched(groups, k2.log.places[n])
    ensures id in k'.byId && k'.byId[id] == k.byId[id].(runKeys := k'.byId[id].runKeys)
  {
    hide BooksOk, Found, OnlyWith, Untouched, NewIds, Touched, Late, KeepsDeadlines;
    var b := k.byId[id];
    assert k2.byId[id] == b;
    BatchIsOk(k2, id);
    forall i | 0 <= i < |b.resolved| && !b.resolved[i]
      ensures id in k3.byId && i < |k3.byId[id].resolved| && !k3.byId[id].resolved[i]
    {
      StaysOpen(k2, k3, id, i);
    }
    OpenSomewhere(b);
    assert MoreResolved(b, k3.byId[id]);
    BatchIsOk(k3, id);
    assert k3.byId[id].resolved == b.resolved;
  }

  lemma OpenSomewhere(b: Batch)
    requires BatchOk(b) && 0 < b.unresolved
    ensures exists i :: 0 <= i < |b.resolved| && !b.resolved[i]
  {
    ClearNone(b.resolved);
  }

  lemma StaysOpen(k: Books, k': Books, id: Id, i: nat)
    requires BooksOk(k) && BooksOk(k') && id in k.byId && i < |k.byId[id].resolved| && !k.byId[id].resolved[i]
    requires forall n :: n in k.log.places && k.log.places[n].id == id ==> n in k'.log.places && k'.log.places[n] == k.log.places[n]
    ensures id in k'.byId && i < |k'.byId[id].resolved| && !k'.byId[id].resolved[i]
  {
    OpenSlot(k, id, i);
    hide EndsOk, Followed, BatchesOk, Conserved, MarksOk;
    var n := k.byId[id].Number(i);
    assert Open(k'.byId, k'.log.places[n]);
  }

  ghost function GroupIds(groups: seq<(Id, seq<nat>)>): set<Id> {
    set g | 0 <= g < |groups| :: groups[g].0
  }

  lemma NoGroupIds()
    ensures GroupIds([]) == {}
  {
  }

  lemma MoreGroupIds(groups: seq<(Id, seq<nat>)>, group: (Id, seq<nat>))
    ensures GroupIds(groups + [group]) == GroupIds(groups) + {group.0}
  {
    var more := groups + [group];
    assert more[|groups|] == group;
    assert forall g :: 0 <= g < |groups| ==> more[g] == groups[g];
  }

  lemma SegmentsFewer(k: Books, k': Books, found: seq<Segment>, outcome: Outcome, heard: set<Id>)
    requires SegmentsEnded(k, k', found, outcome, heard)
    ensures Fewer(k.log.places, k'.log.places)
  {
  }

  lemma ConfirmedAll(k: Books, k1: Books, k2: Books, k3: Books, k': Books, processed: seq<U64>, failed: seq<U64>, refused: seq<U64>,
                     found: seq<Segment>, found': seq<Segment>, found'': seq<Segment>, groups: seq<(Id, seq<nat>)>,
                     heard: set<Id>, heard': set<Id>, at: Time, now: Time)
    requires BooksOk(k) && BooksOk(k1) && BooksOk(k2) && BooksOk(k3) && AllHold(k.byId) && heard <= heard'
    requires SegmentsEnded(k, k1, found, Processed, heard) && Exactly(k.log.places, found, processed)
    requires SegmentsEnded(k1, k2, found', GivenUp(Failed), heard') && Exactly(k1.log.places, found', failed)
    requires HeardOnly(k, k1, {}, heard) && HeardOnly(k1, k2, heard, heard')
    requires Exactly(k2.log.places, found'', refused) && forall slot :: Touched(groups, slot) <==> Found(found'', slot)
    requires ResentIn(k2.byId, k3.byId, GroupIds(groups), k2.usedIds) && ResentGroups(k2, k3, groups, at)
    requires Heeded(k3.byId, k'.byId, heard', now)
    ensures forall id :: id in k.byId ==> ConfirmedBatch(k, k', processed, failed, refused, now, id)
  {
    hide BooksOk, SegmentsEnded, HeardOnly, Found, Touched, ResentIn, ResentGroups, Heeded, Names, SameButRuns, Due, HeardAt, Exactly;
    SegmentsFewer(k, k1, found, Processed, heard);
    SegmentsFewer(k1, k2, found', GivenUp(Failed), heard');
    forall id | id in k.byId ensures ConfirmedBatch(k, k', processed, failed, refused, now, id) {
      HeardEither(k, k1, k2, found, found', processed, failed, heard, heard', id);
      if id in k'.byId {
        ConfirmedKept(k, k1, k2, k3, k', found, found', GroupIds(groups), heard, heard', now, id);
      }
      if id !in heard' && !NamedIn(k.log.places, id, refused) {
        NotTouched(k, k2, found'', groups, refused, id);
        ConfirmedNot(k, k1, k2, k3, k', found, found', groups, GroupIds(groups), heard, heard', now, at, id);
      }
    }
  }

  lemma NotTouched(k: Books, k2: Books, found: seq<Segment>, groups: seq<(Id, seq<nat>)>, refused: seq<U64>, id: Id)
    requires forall n :: n in k2.log.places ==> n in k.log.places && k2.log.places[n] == k.log.places[n]
    requires Exactly(k2.log.places, found, refused) && forall slot :: Touched(groups, slot) <==> Found(found, slot)
    requires !NamedIn(k.log.places, id, refused)
    ensures forall n :: n in k2.log.places && k2.log.places[n].id == id ==> !Touched(groups, k2.log.places[n])
  {
    hide Touched, Found, Names;
  }
}
