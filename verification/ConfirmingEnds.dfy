/** Messages resolved and batches given up on: what a CONFIRMATION's lists, a drop or
    the end of a batch keep of the books. */
module ConfirmingEnds {
  import opened Common
  import opened Flags
  import opened Confirming
  import opened ConfirmingBooks
  import opened ConfirmingSends
  import opened ConfirmingRuns

  /** The runs left, each where and as long as it was. */
  ghost predicate RunsLeft(runs: Runs, runs': Runs) {
    forall k :: k in runs' ==>
                  k in runs && runs'[k].batch == runs[k].batch && runs'[k].index == runs[k].index && runs'[k].count == runs[k].count
  }

  ghost predicate BatchesLeft(byId: Batches, byId': Batches, heard: set<Id>) {
    && byId'.Keys == byId.Keys
    && (forall id :: id in byId ==>
                       && SameButFlags(byId[id], byId'[id])
                       && |byId'[id].resolved| == |byId[id].resolved|
                       && (id in heard || byId'[id] == byId[id]))
  }

  /** From `k` to `k'`, exactly the messages waited for that `found` covers
      ended, with `outcome`; the batches they were in are among `heard`. */
  ghost predicate SegmentsEnded(k: Books, k': Books, found: seq<Segment>, outcome: Outcome, heard: set<Id>) {
    && BatchesLeft(k.byId, k'.byId, heard)
    && k'.last == k.last && k'.usedIds == k.usedIds && k'.log.moving == k.log.moving && k'.log.follows == k.log.follows
    && Fewer(k.log.places, k'.log.places)
    && (forall n :: n in k.log.places ==> (n in k'.log.places <==> !Found(found, k.log.places[n])))
    && OnlyWith(k.log.places, k.log.ended, k'.log.ended, outcome)
  }

  /** What ended since were numbers waited for, and with `outcome`. */
  ghost predicate OnlyWith(places: Places, ended: map<nat, Outcome>, ended': map<nat, Outcome>, outcome: Outcome) {
    && StillEnded(ended, ended')
    && (forall n :: n in ended' && n !in ended ==> n in places && ended'[n] == outcome)
  }

  lemma OnlyWithMore(places: Places, places': Places, ended: map<nat, Outcome>, ended': map<nat, Outcome>, gone: set<nat>, outcome: Outcome)
    requires OnlyWith(places, ended, ended', outcome) && Fewer(places, places')
    requires gone <= places'.Keys && gone !! ended'.Keys
    ensures OnlyWith(places, ended, EndAll(ended', gone, outcome), outcome)
  {
  }

  lemma BatchesLeftStep(byId: Batches, byId': Batches, id: Id, begin: nat, end: nat, heard: set<Id>)
    requires BatchesLeft(byId, byId', heard) && id in byId' && begin <= end <= |byId'[id].resolved|
    ensures var byId'' := byId'[id := Marked(byId'[id], begin, end)];
            && BatchesLeft(byId, byId'', heard + {id})
            && (Clear(byId'[id].resolved[begin..end]) == 0 ==> BatchesLeft(byId, byId'', heard))
  {
    hide Clear, Mark;
    MarkedSame(byId'[id], begin, end);
  }

  lemma SegmentsNone(k: Books, outcome: Outcome, heard: set<Id>)
    ensures SegmentsEnded(k, k, [], outcome, heard)
  {
  }

  lemma FoundOne(found: seq<Segment>, s: Segment, slot: Slot)
    ensures Found(found + [s], slot) <==> Found(found, slot) || InSegment(s, slot)
  {
    if Found(found, slot) {
      FoundMore(found, [s], slot);
    }
    if InSegment(s, slot) {
      assert (found + [s])[|found|] == s;
    }
  }

  /** The open numbers of a range are those waited for at its places. */
  lemma OpenNumbersAre(byId: Batches, places: Places, id: Id, begin: nat, end: nat, n: nat)
    requires Placed(byId, places) && id in byId && begin <= end <= |byId[id].resolved| && n in places
    ensures n in OpenNumbers(byId[id], begin, end) <==> places[n].id == id && begin <= places[n].index < end
  {
    var b := byId[id];
    if places[n].id == id && begin <= places[n].index < end {
      assert b.Number(places[n].index) == n && !b.resolved[places[n].index];
    }
    if n in OpenNumbers(b, begin, end) {
      var i :| begin <= i < end && !b.resolved[i] && b.Number(i) == n;
      assert Open(byId, Slot(id, i));
    }
  }

  lemma OpenInPlaces(k: Books, id: Id, begin: nat, end: nat)
    requires BooksOk(k) && id in k.byId && begin <= end <= |k.byId[id].resolved|
    ensures OpenNumbers(k.byId[id], begin, end) <= k.log.places.Keys
    ensures OpenNumbers(k.byId[id], begin, end) !! k.log.ended.Keys
  {
    hide EndsOk, Followed, Mark, Clear;
    MarkedPlaces(k.byId, k.log.places, id, begin, end);
  }

  lemma SegmentEnded(k: Books, k': Books, k'': Books, found: seq<Segment>, s: Segment, outcome: Outcome, heard: set<Id>)
    requires BooksOk(k') && SegmentsEnded(k, k', found, outcome, heard)
    requires s.batch in k'.byId && s.begin <= s.end <= |k'.byId[s.batch].resolved|
    requires RangeResolved(k', k'', s.batch, s.begin, s.end, outcome)
    ensures SegmentsEnded(k, k'', found + [s], outcome, heard + {s.batch})
    ensures Clear(k'.byId[s.batch].resolved[s.begin..s.end]) == 0 ==> SegmentsEnded(k, k'', found + [s], outcome, heard)
  {
    hide OpenNumbers, Clear, Mark, BooksOk, Placed, BatchOk, InSegment, Found, BatchesLeft, EndAll, Marked, OnlyWith;
    BooksParts(k', s.batch);
    OpenInPlaces(k', s.batch, s.begin, s.end);
    BatchesLeftStep(k.byId, k'.byId, s.batch, s.begin, s.end, heard);
    OnlyWithMore(k.log.places, k'.log.places, k.log.ended, k'.log.ended, OpenNumbers(k'.byId[s.batch], s.begin, s.end), outcome);
    forall n | n in k.log.places
      ensures n in k''.log.places <==> !Found(found + [s], k.log.places[n])
    {
      FoundOne(found, s, k.log.places[n]);
      if n in k'.log.places {
        SegmentCovers(k'.byId, k'.log.places, s, n);
      }
    }
  }

  lemma SegmentCovers(byId: Batches, places: Places, s: Segment, n: nat)
    requires Placed(byId, places) && n in places
    requires s.batch in byId && s.begin <= s.end <= |byId[s.batch].resolved|
    ensures n in OpenNumbers(byId[s.batch], s.begin, s.end) <==> InSegment(s, places[n])
  {
    hide Placed, OpenNumbers;
    OpenNumbersAre(byId, places, s.batch, s.begin, s.end, n);
  }

  lemma MarkedSame(b: Batch, begin: nat, end: nat)
    requires begin <= end <= |b.resolved|
    ensures Clear(b.resolved[begin..end]) == 0 ==> Marked(b, begin, end) == b
  {
    ClearNone(b.resolved[begin..end]);
    if Clear(b.resolved[begin..end]) == 0 {
      assert forall i :: begin <= i < end ==> b.resolved[begin..end][i - begin] == b.resolved[i];
      assert Mark(b.resolved, begin, end) == b.resolved;
    }
  }

  /** Where a segment looked up in `runs` lies. */
  ghost predicate SegmentAt(s: Segment, runs: Runs, byId: Batches) {
    && s.batch in byId && s.key in runs && runs[s.key].batch == s.batch
    && runs[s.key].index <= s.begin < s.end <= runs[s.key].index + runs[s.key].count <= |byId[s.batch].resolved|
    && forall i :: s.begin <= i < s.end ==> byId[s.batch].Number(i) == s.key + (i - runs[s.key].index)
  }

  lemma SegmentIsAt(s: Segment, runs: Runs, byId: Batches, places: Places, ended: map<nat, Outcome>, pairs: seq<U64>)
    requires SegmentOk(s, runs, pairs) && Indexed(runs, byId, places, ended, {})
    ensures SegmentAt(s, runs, byId)
  {
    hide Disjoint, Covered, Clear, NamedAt;
    assert RunOk(s.key, runs[s.key], byId[s.batch], ended);
  }

  lemma SegmentStaysAt(s: Segment, runs: Runs, byId: Batches, byId': Batches, heard: set<Id>)
    requires SegmentAt(s, runs, byId) && BatchesLeft(byId, byId', heard)
    ensures SegmentAt(s, runs, byId')
  {
    assert forall i :: byId'[s.batch].Number(i) == byId[s.batch].Number(i);
  }

  /** A segment with a message still open is in a run still registered. */
  lemma RunStillThere(runs: Runs, runs': Runs, byId: Batches, places: Places, s: Segment, i: nat)
    requires RunsLeft(runs, runs') && Disjoint(runs, {}) && Covered(runs', places, {}) && Placed(byId, places)
    requires SegmentAt(s, runs, byId) && s.begin <= i < s.end && !byId[s.batch].resolved[i]
    ensures WithinRun(runs', byId, s.batch, s.key, s.begin, s.end)
  {
    assert Open(byId, Slot(s.batch, i));
    var n := byId[s.batch].Number(i);
    assert n in places;
    var k :| k in runs' && Holds(runs'[k], k, n, places[n]);
    assert k == s.key;
  }

  lemma OpenInside(flags: seq<bool>, begin: nat, end: nat) returns (i: nat)
    requires begin <= end <= |flags| && 0 < Clear(flags[begin..end])
    ensures begin <= i < end && !flags[i]
  {
    ClearNone(flags[begin..end]);
    var j :| 0 <= j < end - begin && !flags[begin..end][j];
    i := begin + j;
  }

  lemma RunsLeftLowered(runs: Runs, runs': Runs, key: nat, count: nat)
    requires RunsLeft(runs, runs') && key in runs'
    ensures RunsLeft(runs, Lowered(runs', key, count))
  {
  }

  lemma EndedSubset(ended: map<nat, Outcome>, gone: set<nat>, outcome: Outcome)
    requires gone !! ended.Keys
    ensures StillEnded(ended, EndAll(ended, gone, outcome))
    ensures forall n :: n in gone ==> n in EndAll(ended, gone, outcome)
  {
  }

  /** The index after a segment's messages ended and its run heard of them. */
  lemma SegmentIndexed(runs: Runs, runs': Runs, k: Books, k': Books, s: Segment, outcome: Outcome)
    requires BooksOk(k) && Indexed(runs', k.byId, k.log.places, k.log.ended, {})
    requires RunsLeft(runs, runs') && Disjoint(runs, {})
    requires SegmentAt(s, runs, k.byId) && RangeResolved(k, k', s.batch, s.begin, s.end, outcome)
    ensures var newly := Clear(k.byId[s.batch].resolved[s.begin..s.end]);
            if newly == 0 then Indexed(runs', k'.byId, k'.log.places, k'.log.ended, {})
            else
              && s.key in runs' && runs'[s.key].batch == s.batch && 0 < runs'[s.key].count
              && newly <= runs'[s.key].unresolved
              && Indexed(Lowered(runs', s.key, newly), k'.byId, k'.log.places, k'.log.ended, {})
  {
    hide OpenNumbers, Clear, Mark, BooksOk, Placed, BatchesOk, RunsExact, Disjoint, Covered, Marked, EndAll, Lowered;
    var b, newly := k.byId[s.batch], Clear(k.byId[s.batch].resolved[s.begin..s.end]);
    var gone := OpenNumbers(b, s.begin, s.end);
    OpenInPlaces(k, s.batch, s.begin, s.end);
    EndedSubset(k.log.ended, gone, outcome);
    BooksPlaced(k);
    if newly == 0 {
      MarkedSame(b, s.begin, s.end);
      NoneOpen(b, s.begin, s.end);
      EndNone(k.log.ended, outcome);
      assert k.log.places - {} == k.log.places;
      assert k.byId[s.batch := b] == k.byId;
    } else {
      var i := OpenInside(b.resolved, s.begin, s.end);
      RunStillThere(runs, runs', k.byId, k.log.places, s, i);
      LoweredIndexed(runs', k.byId, k.log.places, k.log.ended, k'.log.ended, s.batch, s.key, s.begin, s.end);
    }
  }

  lemma BooksPlaced(k: Books)
    requires BooksOk(k)
    ensures BatchesOk(k.byId) && Placed(k.byId, k.log.places)
  {
  }

  lemma NoneOpen(b: Batch, begin: nat, end: nat)
    requires begin <= end <= |b.resolved| && Clear(b.resolved[begin..end]) == 0
    ensures OpenNumbers(b, begin, end) == {}
  {
    ClearNone(b.resolved[begin..end]);
    assert forall i :: begin <= i < end ==> b.resolved[begin..end][i - begin] == b.resolved[i];
  }

  lemma EndNone(ended: map<nat, Outcome>, outcome: Outcome)
    ensures EndAll(ended, {}, outcome) == ended
  {
  }

  lemma IndexedDisjoint(runs: Runs, byId: Batches, places: Places, ended: map<nat, Outcome>)
    requires Indexed(runs, byId, places, ended, {})
    ensures Disjoint(runs, {})
  {
  }

  lemma RunsLeftSame(runs: Runs)
    ensures RunsLeft(runs, runs)
  {
  }

  lemma RunsLeftDisjoint(runs: Runs, runs': Runs)
    requires RunsLeft(runs, runs') && Disjoint(runs, {})
    ensures Disjoint(runs', {})
  {
  }

  lemma SegmentsLeft(k: Books, k': Books, found: seq<Segment>, outcome: Outcome, heard: set<Id>)
    requires SegmentsEnded(k, k', found, outcome, heard)
    ensures BatchesLeft(k.byId, k'.byId, heard) && k'.byId.Keys == k.byId.Keys
  {
  }

  lemma SegmentFits(s: Segment, runs: Runs, byId: Batches)
    requires SegmentAt(s, runs, byId)
    ensures s.batch in byId && s.begin <= s.end <= |byId[s.batch].resolved|
  {
  }

  lemma RangeDue(k: Books, k': Books, byDue: set<(Time, Id)>, id: Id, begin: nat, end: nat, outcome: Outcome)
    requires DueIndexed(k.byId, byDue) && DueCurrent(k.byId, {})
    requires id in k.byId && begin <= end <= |k.byId[id].resolved| && RangeResolved(k, k', id, begin, end, outcome)
    ensures DueIndexed(k'.byId, byDue) && DueCurrent(k'.byId, {})
  {
    hide Clear, Mark, OpenNumbers, EndAll;
    SameDue(k.byId, byDue, id, Marked(k.byId[id], begin, end));
  }

  /** How many of the messages have no number yet. */
  function Zeros(records: seq<Record>): nat {
    if records == [] then 0
    else Zeros(records[..|records| - 1]) + if records[|records| - 1].number == 0 then 1 else 0
  }

  lemma ZerosNext(records: seq<Record>, at: nat)
    requires at < |records|
    ensures Zeros(records[..at + 1]) == Zeros(records[..at]) + if records[at].number == 0 then 1 else 0
  {
    assert records[..at + 1][..at] == records[..at];
  }

  lemma {:induction false} ZerosNone(records: seq<Record>)
    requires forall i :: 0 <= i < |records| ==> records[i].number != 0
    ensures Zeros(records) == 0
  {
    if records != [] {
      ZerosNone(records[..|records| - 1]);
    }
  }

  lemma {:induction false} ZerosAll(records: seq<Record>)
    requires forall i :: 0 <= i < |records| ==> records[i].number == 0
    ensures Zeros(records) == |records|
  {
    if records != [] {
      ZerosAll(records[..|records| - 1]);
    }
  }

  lemma ReadyZeros(k: Books, records: seq<Record>)
    requires Ready(k, records)
    ensures Zeros(records) == 0
  {
    ZerosNone(records);
  }

  lemma ReadyEmpty(k: Books)
    ensures Ready(k, []) && (k.log.moving == {} ==> MovingIn(k.log.moving, []))
  {
  }

  /** Nothing but the messages at `indexes` of batch `id` is touched, and none
      of these stays there. */
  ghost predicate ResentPlaces(places: Places, places': Places, id: Id, indexes: seq<nat>) {
    && (forall n :: n in places && (places[n].id != id || places[n].index !in indexes) ==> n in places' && places'[n] == places[n])
    && (forall n :: n in places' && places'[n].id == id ==> places'[n].index !in indexes)
  }

  /** A batch made to send messages of another again: its deadline, retry time and
      back-off are the other's, and it is not written yet. */
  ghost predicate SentLike(c: Batch, b: Batch) {
    c.deadline == b.deadline && c.retryAfter == b.retryAfter && c.backoff == b.backoff && !c.written
  }

  ghost predicate SameButRuns(b: Batch, c: Batch) {
    c == b.(resolved := c.resolved, unresolved := c.unresolved, runKeys := c.runKeys)
  }

  ghost predicate TermsOf(terms: Terms, b: Batch) {
    terms.deadline == b.deadline && terms.retryAfter == b.retryAfter && terms.backoff == b.backoff
  }

  /** The batches made are due after `now`, and batch `id` is kept only with a
      message left. */
  ghost predicate ResentBatches(byId: Batches, byId': Batches, usedIds: set<Id>, id: Id, now: Time) {
    && (forall j :: j in byId && j != id ==> j in byId' && byId'[j] == byId[j])
    && (forall j :: j in byId' && j !in byId ==>
          j !in usedIds && 0 < byId'[j].unresolved && now < byId'[j].due && id in byId && SentLike(byId'[j], byId[id]))
    && (id in byId' ==>
          && id in byId && 0 < byId'[id].unresolved && SameButRuns(byId[id], byId'[id])
          && |byId'[id].resolved| == |byId[id].resolved|
          && forall i :: 0 <= i < |byId[id].resolved| && byId[id].resolved[i] ==> byId'[id].resolved[i])
  }

  /** What sending messages of batch `id` again comes to: no number is given,
      each message at `indexes` is held by a batch made meanwhile with the same
      deadline, could not be sent, or is given up on past that deadline, and
      nothing else is touched. */
  ghost predicate Resent(k: Books, k': Books, id: Id, indexes: seq<nat>, now: Time) {
    && k'.last == k.last && k.usedIds <= k'.usedIds
    && StillEnded(k.log.ended, k'.log.ended)
    && (forall n :: n in k'.log.ended && n !in k.log.ended ==>
          k'.log.ended[n] == Unsendable || (k'.log.ended[n] == GivenUp(NotConfirmed) && id in k.byId && k.byId[id].deadline <= now))
    && ResentPlaces(k.log.places, k'.log.places, id, indexes)
    && ResentBatches(k.byId, k'.byId, k.usedIds, id, now)
  }

  lemma ResentNone(k: Books, id: Id, indexes: seq<nat>, now: Time)
    requires BooksOk(k) && id !in k.byId
    ensures Resent(k, k, id, indexes, now)
  {
    hide EndsOk, Followed, BatchesOk;
    forall n | n in k.log.places
      ensures k.log.places[n].id != id
    {
      assert Open(k.byId, k.log.places[n]);
    }
  }

  /** The batch the messages were taken from, as it is kept or forgotten. */
  ghost predicate LeftBehind(byId: Batches, byId': Batches, id: Id) {
    && id in byId
    && if byId[id].unresolved == 0 then byId' == byId - {id}
       else id in byId' && byId' == byId[id := byId[id].(runKeys := byId'[id].runKeys)]
  }

  lemma ResentBatchesFrom(byId: Batches, taken: Batches, left: Batches, byId': Batches, usedIds: set<Id>, id: Id, now: Time,
                          terms: Terms)
    requires id in byId && id in taken && taken == byId[id := taken[id]] && SameButFlags(byId[id], taken[id])
    requires |taken[id].resolved| == |byId[id].resolved|
    requires forall i :: 0 <= i < |byId[id].resolved| && byId[id].resolved[i] ==> taken[id].resolved[i]
    requires 0 <= taken[id].unresolved && LeftBehind(taken, left, id)
    requires NewBatches(left, byId', usedIds, terms) && TermsOf(terms, byId[id]) && id in usedIds && byId.Keys <= usedIds
    requires now < byId[id].deadline || left == byId'
    ensures ResentBatches(byId, byId', usedIds, id, now)
  {
  }

  lemma ResentPlacesFrom(k: Books, taken: Books, k': Books, id: Id, indexes: seq<nat>, outcome: Outcome)
    requires Taking(k, taken, id, indexes, outcome)
    requires Fewer(k'.log.places, taken.log.places) && Placed(k'.byId, k'.log.places)
    requires id in k'.byId ==> k'.byId[id].resolved == taken.byId[id].resolved
    ensures ResentPlaces(k.log.places, k'.log.places, id, indexes)
  {
    forall n | n in k'.log.places && k'.log.places[n].id == id
      ensures k'.log.places[n].index !in indexes
    {
      assert Open(k'.byId, k'.log.places[n]);
    }
  }

  lemma ResentFrom(k: Books, taken: Books, left: Books, k': Books, id: Id, indexes: seq<nat>, now: Time, outcome: Outcome,
                   terms: Terms)
    requires BooksOk(k) && BooksOk(taken) && BooksOk(k') && Taking(k, taken, id, indexes, outcome)
    requires outcome == Unsendable || (outcome == GivenUp(NotConfirmed) && (k.byId[id].deadline <= now || taken.log.ended == k.log.ended))
    requires LeftBehind(taken.byId, left.byId, id) && left == taken.(byId := left.byId)
    requires Sending(left, k', terms) && TermsOf(terms, k.byId[id]) && k'.last == left.last
    requires now < k.byId[id].deadline || left.byId == k'.byId
    ensures Resent(k, k', id, indexes, now)
  {
    hide EndsOk, Followed, Clear, Conserved, Placed, BatchesOk, Taking, NewBatches, LeftBehind, ResentPlaces, ResentBatches, Fewer;
    TakingParts(k, taken, id, indexes, outcome);
    BatchIsOk(taken, id);
    LeftParts(taken.byId, left.byId, k'.byId, k.usedIds, id, terms);
    ResentBatchesFrom(k.byId, taken.byId, left.byId, k'.byId, k.usedIds, id, now, terms);
    ResentPlacesFrom(k, taken, k', id, indexes, outcome);
  }

  lemma TakingParts(k: Books, taken: Books, id: Id, indexes: seq<nat>, outcome: Outcome)
    requires Taking(k, taken, id, indexes, outcome)
    ensures id in k.byId && id in taken.byId && taken.byId == k.byId[id := taken.byId[id]] && SameButFlags(k.byId[id], taken.byId[id])
    ensures |taken.byId[id].resolved| == |k.byId[id].resolved|
    ensures forall i :: 0 <= i < |k.byId[id].resolved| && k.byId[id].resolved[i] ==> taken.byId[id].resolved[i]
    ensures taken.last == k.last && taken.usedIds == k.usedIds && OnlyEnded(k.log.ended, taken.log.ended, outcome)
  {
  }

  lemma LeftParts(taken: Batches, left: Batches, byId': Batches, usedIds: set<Id>, id: Id, terms: Terms)
    requires LeftBehind(taken, left, id) && NewBatches(left, byId', usedIds, terms) && id in usedIds
    ensures id in byId' ==> byId'[id].resolved == taken[id].resolved
  {
  }

  lemma FlagsStale(runs: Runs, k: Books, k': Books, id: Id, index: nat)
    requires id in k.byId && index < |k.byId[id].resolved|
    requires Indexed(runs, k.byId, k.log.places, k.log.ended, {id})
    requires k'.byId == k.byId[id := k.byId[id].(resolved := k.byId[id].resolved[index := true], unresolved := k.byId[id].unresolved - 1)]
    requires Fewer(k.log.places, k'.log.places) && StillEnded(k.log.ended, k'.log.ended)
    ensures Indexed(runs, k'.byId, k'.log.places, k'.log.ended, {id})
  {
    hide Indexed, Fewer, StillEnded;
    StaleIndexed(runs, k.byId, k.log.places, k.log.ended, id, k'.byId[id], k'.log.places, k'.log.ended);
  }

  lemma FlagsDue(byId: Batches, byDue: set<(Time, Id)>, id: Id, index: nat)
    requires DueIndexed(byId, byDue) && DueCurrent(byId, {}) && id in byId && index < |byId[id].resolved|
    ensures var byId' := byId[id := byId[id].(resolved := byId[id].resolved[index := true], unresolved := byId[id].unresolved - 1)];
            DueIndexed(byId', byDue) && DueCurrent(byId', {})
  {
    hide DueIndexed, DueCurrent;
    SameDue(byId, byDue, id, byId[id].(resolved := byId[id].resolved[index := true], unresolved := byId[id].unresolved - 1));
  }

  lemma MovedStale(runs: Runs, k: Books, id: Id, index: nat)
    requires BooksOk(k) && id in k.byId && index < |k.byId[id].resolved|
    requires Indexed(runs, k.byId, k.log.places, k.log.ended, {id})
    ensures var k' := MoveAt(k, id, index); Indexed(runs, k'.byId, k'.log.places, k'.log.ended, {id})
  {
    hide BooksOk, Indexed;
    FlagsStale(runs, k, MoveAt(k, id, index), id, index);
  }

  lemma EndedStale(runs: Runs, k: Books, id: Id, index: nat, outcome: Outcome)
    requires BooksOk(k) && id in k.byId && index < |k.byId[id].resolved| && !k.byId[id].resolved[index]
    requires Indexed(runs, k.byId, k.log.places, k.log.ended, {id})
    ensures var k' := ResolveAt(k, id, index, outcome); Indexed(runs, k'.byId, k'.log.places, k'.log.ended, {id})
  {
    hide BooksOk, Indexed;
    OpenSlot(k, id, index);
    FlagsStale(runs, k, ResolveAt(k, id, index, outcome), id, index);
  }

  /** The run of an open message. */
  lemma RunOfOpen(runs: Runs, k: Books, id: Id, index: nat) returns (key: nat)
    requires BooksOk(k) && Open(k.byId, Slot(id, index)) && Indexed(runs, k.byId, k.log.places, k.log.ended, {})
    ensures key in runs && runs[key].batch == id && Spans(runs[key], key, k.byId[id].Number(index))
    ensures WithinRun(runs, k.byId, id, key, index, index + 1)
  {
    hide BooksOk, Clear, Disjoint;
    OpenSlot(k, id, index);
    var n := k.byId[id].Number(index);
    assert n in k.log.places;
    key :| key in runs && Holds(runs[key], key, n, k.log.places[n]);
    assert RunOk(key, runs[key], k.byId[id], k.log.ended);
  }

  /** The index after one message ended and its run heard of it. */
  lemma OneIndexed(runs: Runs, k: Books, id: Id, index: nat, key: nat, outcome: Outcome)
    requires BooksOk(k) && Indexed(runs, k.byId, k.log.places, k.log.ended, {})
    requires WithinRun(runs, k.byId, id, key, index, index + 1) && !k.byId[id].resolved[index]
    ensures var k' := ResolveAt(k, id, index, outcome);
            Indexed(Lowered(runs, key, 1), k'.byId, k'.log.places, k'.log.ended, {})
  {
    hide BooksOk, Indexed, OpenNumbers, Clear, Mark, EndAll, Placed, BatchesOk, Lowered;
    BooksPlaced(k);
    RangeForm(k, id, index, index + 1, outcome);
    assert ResolveRange(k, id, index, index, outcome) == k;
    OpenOne(k.byId[id], index);
    OpenInPlaces(k, id, index, index + 1);
    EndedSubset(k.log.ended, OpenNumbers(k.byId[id], index, index + 1), outcome);
    LoweredIndexed(runs, k.byId, k.log.places, k.log.ended, ResolveAt(k, id, index, outcome).log.ended, id, key, index, index + 1);
  }

  lemma TakingFits(k: Books, k': Books, id: Id, done: seq<nat>, outcome: Outcome)
    requires Taking(k, k', id, done, outcome)
    ensures id in k.byId && id in k'.byId && |k'.byId[id].resolved| == |k.byId[id].resolved|
  {
  }

  lemma ResolvedForm(k: Books, id: Id, index: nat, outcome: Outcome)
    requires id in k.byId && index < |k.byId[id].resolved|
    ensures var b, k' := k.byId[id], ResolveAt(k, id, index, outcome);
            && (b.resolved[index] ==> k' == k)
            && (!b.resolved[index] ==>
                  k'.byId == k.byId[id := b.(resolved := b.resolved[index := true], unresolved := b.unresolved - 1)])
            && k'.log.moving == k.log.moving
  {
  }

  lemma LeftSame(taken: Batches, left: Batches, id: Id)
    requires id in taken && left == (if taken[id].unresolved == 0 then taken - {id} else taken)
    ensures LeftBehind(taken, left, id)
  {
    assert taken[id := taken[id]] == taken;
  }

  lemma LeftRebuilt(taken: Batches, rebuilt: Batches, left: Batches, id: Id)
    requires id in taken && id in rebuilt && rebuilt == taken[id := taken[id].(runKeys := rebuilt[id].runKeys)]
    requires left == (if rebuilt[id].unresolved == 0 then rebuilt - {id} else rebuilt)
    ensures LeftBehind(taken, left, id)
  {
    assert rebuilt - {id} == taken - {id};
  }

  lemma ReadyKept(k: Books, k': Books, records: seq<Record>)
    requires Ready(k, records) && k'.log == k.log && k'.marks == k.marks
    ensures RecordsOk(k', records) && Zeros(records) == 0
  {
    ZerosNone(records);
  }

  // Giving a whole batch up

  lemma RangeStale(runs: Runs, k: Books, k': Books, stale: set<Id>, id: Id, begin: nat, end: nat, outcome: Outcome)
    requires BooksOk(k) && Indexed(runs, k.byId, k.log.places, k.log.ended, {id})
    requires id in k.byId && begin <= end <= |k.byId[id].resolved| && RangeResolved(k, k', id, begin, end, outcome)
    ensures Indexed(runs, k'.byId, k'.log.places, k'.log.ended, {id})
    ensures OnlyWith(k.log.places, k.log.ended, k'.log.ended, outcome)
  {
    hide BooksOk, Indexed, OpenNumbers, Clear, Mark, EndAll;
    OpenInPlaces(k, id, begin, end);
    EndedSubset(k.log.ended, OpenNumbers(k.byId[id], begin, end), outcome);
    EndedOnly(k.log.places, k.log.ended, OpenNumbers(k.byId[id], begin, end), outcome);
    StaleIndexed(runs, k.byId, k.log.places, k.log.ended, id, k'.byId[id], k'.log.places, k'.log.ended);
  }

  lemma EndedOnly(places: Places, ended: map<nat, Outcome>, gone: set<nat>, outcome: Outcome)
    requires gone <= places.Keys && gone !! ended.Keys
    ensures OnlyWith(places, ended, EndAll(ended, gone, outcome), outcome)
  {
  }

  lemma WholeBatch(k: Books, k': Books, id: Id, outcome: Outcome)
    requires BooksOk(k) && id in k.byId && RangeResolved(k, k', id, 0, |k.byId[id].resolved|, outcome)
    ensures id in k'.byId && k'.byId[id].unresolved == 0
    ensures k'.byId - {id} == k.byId - {id}
    ensures k'.last == k.last && k'.usedIds == k.usedIds && k'.log.moving == k.log.moving
  {
    BatchIsOk(k, id);
    var flags := k.byId[id].resolved;
    assert flags[0..|flags|] == flags;
    hide BooksOk, OpenNumbers, Mark, EndAll;
  }

  /** The batches left when one is forgotten have a message left if all had. */
  ghost predicate AllHold(byId: Batches) {
    forall id :: id in byId ==> 0 < byId[id].unresolved
  }

  lemma SentHold(k: Books, k': Books, terms: Terms)
    requires Sending(k, k', terms) && AllHold(k.byId)
    ensures AllHold(k'.byId)
  {
  }

  lemma NothingEnded(places: Places, ended: map<nat, Outcome>, outcome: Outcome)
    ensures OnlyWith(places, ended, ended, outcome)
  {
  }

  // Batches an operation does not touch

  ghost predicate Untouched(byId: Batches, byId': Batches, touched: set<Id>) {
    forall id :: id in byId && id !in touched ==> id in byId' && byId'[id] == byId[id]
  }

  lemma UntouchedTrans(byId: Batches, byId': Batches, byId'': Batches, touched: set<Id>)
    requires Untouched(byId, byId', touched) && Untouched(byId', byId'', touched)
    ensures Untouched(byId, byId'', touched)
  {
  }

  lemma AllUntouched(byId: Batches, touched: set<Id>)
    ensures Untouched(byId, byId, touched)
  {
  }

  lemma SetUntouched(byId: Batches, byId': Batches, id: Id, b: Batch, touched: set<Id>)
    requires Untouched(byId, byId', touched) && id in touched
    ensures Untouched(byId, byId'[id := b], touched)
  {
  }

  function DueBy(byId: Batches, now: Time): set<Id> {
    set id | id in byId && byId[id].due <= now
  }

  function PlacedOn(byId: Batches, conn: nat): set<Id> {
    set id | id in byId && byId[id].placedOn == Some(conn)
  }

  /** Those of them written, or, in `sent`, whose tracker says so already. */
  function WrittenOn(byId: Batches, conn: nat, sent: set<Id>): set<Id> {
    set id | id in byId && byId[id].placedOn == Some(conn) && (byId[id].written || id in sent)
  }

  lemma NotDueUntouched(byId: Batches, byId': Batches, due: set<Id>, now: Time)
    requires Untouched(byId, byId', due) && forall id :: id in byId && id in due ==> byId[id].due <= now
    ensures Untouched(byId, byId', DueBy(byId, now))
  {
  }

  /** Every number held by a batch not touched is still held there. */
  ghost predicate HeldBut(places: Places, places': Places, touched: set<Id>) {
    forall n :: n in places && places[n].id !in touched ==> n in places' && places'[n] == places[n]
  }

  /** What a batch not touched holds is still held there. */
  lemma StillHeld(k: Books, k': Books, touched: set<Id>)
    requires BooksOk(k) && BooksOk(k') && Untouched(k.byId, k'.byId, touched)
    ensures HeldBut(k.log.places, k'.log.places, touched)
  {
    hide EndsOk, Followed, BatchesOk, Conserved;
    forall n | n in k.log.places && k.log.places[n].id !in touched
      ensures n in k'.log.places && k'.log.places[n] == k.log.places[n]
    {
      var slot := k.log.places[n];
      assert Open(k'.byId, slot) && NumberAt(k'.byId, slot) == n;
    }
  }

  /** A batch gone and no other touched: exactly what it held is not held any more. */
  lemma HeldNoMore(k: Books, k': Books, id: Id)
    requires BooksOk(k) && BooksOk(k') && k'.byId == k.byId - {id}
    ensures forall n :: n in k.log.places ==> (n in k'.log.places <==> k.log.places[n].id != id)
  {
    StillHeld(k, k', {id});
    hide EndsOk, Followed, BatchesOk, Conserved;
    forall n | n in k.log.places && n in k'.log.places
      ensures k.log.places[n].id != id
    {
      var slot := k'.log.places[n];
      assert Open(k'.byId, slot) && NumberAt(k'.byId, slot) == n;
      assert Open(k.byId, slot) && NumberAt(k.byId, slot) == n;
      assert k.log.places[n] == slot;
    }
  }

  // Deadlines

  /** When each number waited for is given up on. */
  ghost function Deadlines(k: Books): map<nat, Time> {
    map n | n in k.log.places && k.log.places[n].id in k.byId :: k.byId[k.log.places[n].id].deadline
  }

  /** What ended since could not be sent, or its deadline was over by `now`. */
  ghost predicate Late(k: Books, k': Books, now: Time) {
    && StillEnded(k.log.ended, k'.log.ended)
    && (forall n :: n in k'.log.ended && n !in k.log.ended ==>
          k'.log.ended[n] == Unsendable ||
          (k'.log.ended[n] == GivenUp(NotConfirmed) && n in Deadlines(k) && Deadlines(k)[n] <= now))
  }

  /** What is waited for keeps its deadline, sent again or not. */
  ghost predicate KeepsDeadlines(k: Books, k': Books) {
    forall n :: n in Deadlines(k) && n in Deadlines(k') ==> Deadlines(k')[n] == Deadlines(k)[n]
  }

  lemma DeadlinesOf(k: Books)
    requires BooksOk(k)
    ensures Deadlines(k).Keys == k.log.places.Keys
  {
    hide EndsOk, Followed, BatchesOk, Conserved;
    forall n | n in k.log.places ensures n in Deadlines(k) {
      assert Open(k.byId, k.log.places[n]);
    }
  }

  /** A number given and not ended is waited for. */
  lemma WaitedFor(k: Books, n: nat)
    requires BooksOk(k) && k.log.moving == {} && 1 <= n <= k.last && n !in k.log.ended
    ensures n in k.log.places
  {
    hide EndsOk, Followed, BatchesOk, Placed;
  }

  lemma Given(k: Books, n: nat)
    requires BooksOk(k) && (n in k.log.places || n in k.log.ended)
    ensures 1 <= n <= k.last && !(n in k.log.places && n in k.log.ended)
  {
    hide EndsOk, Followed, BatchesOk, Placed;
  }

  ghost predicate Rested(k: Books) {
    BooksOk(k) && k.log.moving == {}
  }

  // Frames that do not work

  /** One of the frames numbered in a stretch could not be made, or read back. */
  ghost predicate Broke(works: nat -> bool, begin: nat, end: nat) {
    exists i: nat :: begin <= i < end && !works(i)
  }

  /** No number more ended for want of a frame. */
  ghost predicate Unbroken(ended: map<nat, Outcome>, ended': map<nat, Outcome>) {
    forall n :: n in ended' && ended'[n] == Unsendable ==> n in ended && ended[n] == Unsendable
  }

  /** A number ends for want of a frame only where a frame did not work. */
  ghost predicate Clean(works: nat -> bool, begin: nat, end: nat, ended: map<nat, Outcome>, ended': map<nat, Outcome>) {
    begin <= end && (Broke(works, begin, end) || Unbroken(ended, ended'))
  }

  lemma CleanTrans(works: nat -> bool, a: nat, b: nat, c: nat, ended: map<nat, Outcome>, ended': map<nat, Outcome>,
                   ended'': map<nat, Outcome>)
    requires Clean(works, a, b, ended, ended') && Clean(works, b, c, ended', ended'')
    ensures Clean(works, a, c, ended, ended'')
  {
    if Broke(works, a, b) {
      var i: nat :| a <= i < b && !works(i);
      assert a <= i < c;
    }
    if Broke(works, b, c) {
      var i: nat :| b <= i < c && !works(i);
      assert a <= i < c;
    }
  }

  lemma CleanIs(works: nat -> bool, begin: nat, end: nat, ended: map<nat, Outcome>, ended': map<nat, Outcome>)
    requires Clean(works, begin, end, ended, ended')
    ensures begin <= end && (Broke(works, begin, end) || Unbroken(ended, ended'))
  {
  }

  lemma UnbrokenSame(ended: map<nat, Outcome>)
    ensures Unbroken(ended, ended)
  {
  }

  lemma TakingClean(works: nat -> bool, at: nat, k: Books, k': Books, id: Id, done: seq<nat>, outcome: Outcome)
    requires Taking(k, k', id, done, outcome) && outcome != Unsendable
    ensures Clean(works, at, at, k.log.ended, k'.log.ended)
  {
  }

  // Where what is made goes by

  ghost predicate NewPlaced(byId: Batches, byId': Batches, goesBy: Id -> Option<nat>) {
    forall j :: j in byId' && j !in byId ==> byId'[j].placedOn == goesBy(j)
  }

  lemma NonePlaced(byId: Batches, goesBy: Id -> Option<nat>)
    ensures NewPlaced(byId, byId, goesBy)
  {
  }

  lemma PlacedNew(k: Books, taken: Books, left: Books, k': Books, id: Id, indexes: seq<nat>, outcome: Outcome, terms: Terms)
    requires Taking(k, taken, id, indexes, outcome) && LeftBehind(taken.byId, left.byId, id) && Sending(left, k', terms)
    ensures NewPlaced(k.byId, k'.byId, terms.goesBy)
  {
  }

  lemma CleanSame(works: nat -> bool, at: nat, ended: map<nat, Outcome>)
    ensures Clean(works, at, at, ended, ended)
  {
  }

  /** One frame tried: it works and nothing ends so, or it does not. */
  lemma CleanTry(works: nat -> bool, at: nat, ended: map<nat, Outcome>, ended': map<nat, Outcome>)
    requires works(at) ==> Unbroken(ended, ended')
    ensures Clean(works, at, at + 1, ended, ended')
  {
    if !works(at) {
      assert at <= at < at + 1;
    }
  }

  lemma LateNone(k: Books, now: Time)
    ensures Late(k, k, now) && KeepsDeadlines(k, k)
  {
  }

  lemma KeepsTrans(k: Books, k': Books, k'': Books)
    requires Rested(k) && Rested(k') && Rested(k'') && k.last == k'.last == k''.last
    requires StillEnded(k'.log.ended, k''.log.ended) && KeepsDeadlines(k, k') && KeepsDeadlines(k', k'')
    ensures KeepsDeadlines(k, k'')
  {
    hide BooksOk, Deadlines;
    DeadlinesOf(k);
    DeadlinesOf(k');
    DeadlinesOf(k'');
    forall n | n in Deadlines(k) && n in Deadlines(k'') ensures n in Deadlines(k') {
      Given(k'', n);
      WaitedFor(k', n);
    }
  }

  lemma LateTrans(k: Books, k': Books, k'': Books, now: Time, now': Time)
    requires Rested(k) && Rested(k') && Rested(k'') && k.last == k'.last == k''.last && now <= now'
    requires Late(k, k', now) && KeepsDeadlines(k, k') && Late(k', k'', now') && KeepsDeadlines(k', k'')
    ensures Late(k, k'', now') && KeepsDeadlines(k, k'')
  {
    hide BooksOk, Deadlines;
    KeepsTrans(k, k', k'');
    DeadlinesOf(k);
    DeadlinesOf(k');
    forall n | n in k''.log.ended && n !in k.log.ended && n !in k'.log.ended
      ensures n in Deadlines(k) && n in Deadlines(k')
    {
      Given(k'', n);
      WaitedFor(k, n);
      WaitedFor(k', n);
    }
  }

  /** Messages sent again. */
  lemma ResentLate(k: Books, k': Books, id: Id, indexes: seq<nat>, now: Time)
    requires Rested(k) && Rested(k') && Resent(k, k', id, indexes, now)
    ensures Late(k, k', now) && KeepsDeadlines(k, k')
  {
    DeadlinesOf(k);
    DeadlinesOf(k');
    forall n | n in k'.log.ended && n !in k.log.ended ensures n in k.log.places && k.log.places[n].id == id {
      ResentEnd(k, k', id, indexes, now, n);
    }
    hide BooksOk;
    forall n | n in k.log.places && n in k'.log.places ensures Deadlines(k')[n] == Deadlines(k)[n] {
      ResentDeadline(k, k', id, indexes, now, n);
    }
  }

  lemma ResentEnd(k: Books, k': Books, id: Id, indexes: seq<nat>, now: Time, n: nat)
    requires Rested(k) && Rested(k') && Resent(k, k', id, indexes, now) && n in k'.log.ended && n !in k.log.ended
    ensures n in k.log.places && k.log.places[n].id == id
  {
    hide BooksOk, ResentBatches;
    Given(k', n);
    WaitedFor(k, n);
  }

  lemma ResentDeadline(k: Books, k': Books, id: Id, indexes: seq<nat>, now: Time, n: nat)
    requires BooksOk(k) && BooksOk(k') && Resent(k, k', id, indexes, now) && n in k.log.places && n in k'.log.places
    ensures k.log.places[n].id in k.byId && k'.log.places[n].id in k'.byId
    ensures k'.byId[k'.log.places[n].id].deadline == k.byId[k.log.places[n].id].deadline
  {
    hide EndsOk, Followed, BatchesOk, Conserved;
    var slot, slot' := k.log.places[n], k'.log.places[n];
    assert Open(k.byId, slot) && NumberAt(k.byId, slot) == n;
    assert Open(k'.byId, slot') && NumberAt(k'.byId, slot') == n;
    if slot'.id in k.byId && slot'.id != id {
      assert k'.byId[slot'.id] == k.byId[slot'.id];
      assert Open(k.byId, slot') && NumberAt(k.byId, slot') == n;
      assert slot == slot';
    }
  }

  /** What is held by a batch there was is held where it was. */
  lemma ResentKept(k: Books, k': Books, id: Id, indexes: seq<nat>, now: Time, n: nat)
    requires BooksOk(k) && BooksOk(k') && Resent(k, k', id, indexes, now)
    requires n in k.log.places && n in k'.log.places && k'.log.places[n].id in k.byId
    ensures k'.log.places[n] == k.log.places[n]
  {
    hide EndsOk, Followed, BatchesOk, Conserved;
    var slot' := k'.log.places[n];
    assert Open(k'.byId, slot') && NumberAt(k'.byId, slot') == n;
    assert Open(k.byId, slot') && NumberAt(k.byId, slot') == n;
  }

  /** A message sent again and still waited for is held by a batch made meanwhile. */
  lemma ResentElsewhere(k: Books, k': Books, id: Id, indexes: seq<nat>, now: Time, n: nat)
    requires BooksOk(k) && BooksOk(k') && Resent(k, k', id, indexes, now)
    requires n in k.log.places && k.log.places[n].id == id && k.log.places[n].index in indexes && n in k'.log.places
    ensures k'.log.places[n].id !in k.usedIds
  {
    hide EndsOk, Followed, BatchesOk, Conserved;
    assert Open(k'.byId, k'.log.places[n]);
    if k'.log.places[n].id in k.byId {
      ResentKept(k, k', id, indexes, now, n);
    }
  }

  /** One batch gone, the others as they were, those made since under new ids and due
      after `now`. */
  ghost predicate OneGone(byId: Batches, byId': Batches, usedIds: set<Id>, id: Id, now: Time) {
    && id !in byId'
    && (forall j :: j in byId && j != id ==> j in byId' && byId'[j] == byId[j])
    && (forall j :: j in byId' && j !in byId ==> j !in usedIds && now < byId'[j].due)
  }

  lemma OneGoneBy(byId: Batches, byId': Batches, usedIds: set<Id>, id: Id, now: Time, clock: Time)
    requires now <= clock && id !in byId'
    ensures byId' == byId - {id} ==> OneGone(byId, byId', usedIds, id, now)
    ensures ResentBatches(byId, byId', usedIds, id, clock) ==> OneGone(byId, byId', usedIds, id, now)
  {
  }

  /** Batches gone stay gone: no envelope id is drawn twice. */
  lemma StayGone(byId: Batches, byId': Batches, usedIds: set<Id>, id: Id, now: Time, gone: set<Id>, touched: set<Id>)
    requires OneGone(byId, byId', usedIds, id, now) && gone <= usedIds && gone !! byId.Keys && id in touched
    ensures (gone + {id}) !! byId'.Keys && Untouched(byId, byId', touched)
  {
  }

  /** A batch's times changed. */
  lemma TimesLate(k: Books, k': Books, id: Id, now: Time)
    requires k'.log == k.log && id in k.byId && id in k'.byId && k'.byId == k.byId[id := k'.byId[id]]
    requires k'.byId[id].deadline == k.byId[id].deadline
    ensures Late(k, k', now) && KeepsDeadlines(k, k')
  {
  }

  /** A batch past its deadline given up on. */
  lemma GivenUpLate(k: Books, k': Books, id: Id, now: Time)
    requires BooksOk(k) && BooksOk(k') && id in k.byId && k.byId[id].deadline <= now && k'.byId == k.byId - {id}
    requires OnlyWith(k.log.places, k.log.ended, k'.log.ended, GivenUp(NotConfirmed))
    ensures Late(k, k', now) && KeepsDeadlines(k, k')
  {
    hide BooksOk;
    DeadlinesOf(k);
    HeldNoMore(k, k', id);
    DroppedKeepsDeadlines(k, k', id);
    hide KeepsDeadlines;
    forall n | n in k'.log.ended && n !in k.log.ended ensures k.log.places[n].id == id {
      Given(k', n);
    }
  }

  /** Only batches' flags changed, or batches with nothing left went. */
  lemma SegmentsKeepDeadlines(k: Books, k': Books, found: seq<Segment>, outcome: Outcome, heard: set<Id>)
    requires SegmentsEnded(k, k', found, outcome, heard)
    ensures KeepsDeadlines(k, k')
  {
    hide Found;
  }

  lemma DroppedKeepsDeadlines(k: Books, k': Books, id: Id)
    requires BooksOk(k) && BooksOk(k') && k'.byId == k.byId - {id}
    ensures KeepsDeadlines(k, k')
  {
    hide BooksOk;
    StillHeld(k, k', {id});
    HeldNoMore(k, k', id);
  }

  lemma CleanDropped(works: nat -> bool, at: nat, places: Places, ended: map<nat, Outcome>, ended': map<nat, Outcome>,
                     outcome: Outcome)
    requires OnlyWith(places, ended, ended', outcome) && outcome != Unsendable
    ensures Clean(works, at, at, ended, ended')
  {
  }

  // Messages sent on

  ghost predicate NewIds(byId: Batches, byId': Batches, usedIds: set<Id>) {
    forall j :: j in byId' && j !in byId ==> j !in usedIds
  }

  /** What batches `gone` held before its deadline is waited for, in batches made since. */
  ghost predicate SentOn(k: Books, k': Books, gone: set<Id>, now: Time) {
    forall n :: n in k.log.places && k.log.places[n].id in gone && k.log.places[n].id in k.byId &&
                now < k.byId[k.log.places[n].id].deadline ==>
      n in k'.log.places && k'.log.places[n].id !in k.usedIds
  }

  lemma MovedOn(k: Books, k': Books, gone: set<Id>, now: Time)
    requires Rested(k) && Rested(k') && k'.last == k.last && Late(k, k', now) && Unbroken(k.log.ended, k'.log.ended)
    requires gone !! k'.byId.Keys && NewIds(k.byId, k'.byId, k.usedIds)
    requires forall j :: j in k.byId && j in k'.byId ==> SameMessages(k.byId[j], k'.byId[j])
    ensures SentOn(k, k', gone, now)
  {
    hide BooksOk, Late, Deadlines, SameMessages, Unbroken;
    forall n | n in k.log.places && k.log.places[n].id in gone && k.log.places[n].id in k.byId &&
               now < k.byId[k.log.places[n].id].deadline
      ensures n in k'.log.places && k'.log.places[n].id !in k.usedIds
    {
      StillWaitedFor(k, k', now, n);
      HeldElsewhere(k, k', n);
    }
  }

  lemma StillWaitedFor(k: Books, k': Books, now: Time, n: nat)
    requires Rested(k) && Rested(k') && k'.last == k.last && Late(k, k', now) && Unbroken(k.log.ended, k'.log.ended)
    requires n in k.log.places && k.log.places[n].id in k.byId && now < k.byId[k.log.places[n].id].deadline
    ensures n in k'.log.places
  {
    hide BooksOk;
    Given(k, n);
    WaitedFor(k', n);
  }

  /** A number held by a batch there was is held where it was. */
  lemma HeldElsewhere(k: Books, k': Books, n: nat)
    requires BooksOk(k) && BooksOk(k') && n in k.log.places && n in k'.log.places
    requires forall j :: j in k.byId && j in k'.byId ==> SameMessages(k.byId[j], k'.byId[j])
    ensures k'.log.places[n].id in k'.byId
    ensures k'.log.places[n].id in k.byId ==> k'.log.places[n] == k.log.places[n]
  {
    hide EndsOk, Followed, BatchesOk, Conserved, MarksOk;
    var slot' := k'.log.places[n];
    assert Open(k'.byId, slot') && NumberAt(k'.byId, slot') == n;
    if slot'.id in k.byId {
      assert SameMessages(k.byId[slot'.id], k'.byId[slot'.id]);
      assert Open(k.byId, slot') && NumberAt(k.byId, slot') == n;
    }
  }

  lemma NewIdsTrans(byId: Batches, byId': Batches, byId'': Batches, usedIds: set<Id>, usedIds': set<Id>)
    requires NewIds(byId, byId', usedIds) && NewIds(byId', byId'', usedIds') && usedIds <= usedIds'
    ensures NewIds(byId, byId'', usedIds)
  {
  }

  /** Messages sent for the first time have the deadline they were sent with. */
  lemma SentDeadlines(k: Books, k': Books, terms: Terms)
    requires BooksOk(k) && BooksOk(k') && Sending(k, k', terms)
    ensures KeepsDeadlines(k, k')
    ensures forall n :: n in k'.log.places && n !in k.log.places ==> n in Deadlines(k') && Deadlines(k')[n] == terms.deadline
  {
    DeadlinesOf(k');
    hide BooksOk, Open;
    forall n | n in k'.log.places && k'.log.places[n].id in k.byId ensures n in k.log.places {
      PlacedBefore(k, k', terms, n);
    }
  }

  /** A number held by a batch of before was waited for before. */
  lemma PlacedBefore(k: Books, k': Books, terms: Terms, n: nat)
    requires BooksOk(k) && BooksOk(k') && Sending(k, k', terms) && n in k'.log.places && k'.log.places[n].id in k.byId
    ensures n in k.log.places
  {
    hide EndsOk, Followed, BatchesOk, Conserved, MarksOk;
    var slot := k'.log.places[n];
    assert Open(k'.byId, slot) && NumberAt(k'.byId, slot) == n;
    assert Open(k.byId, slot) && NumberAt(k.byId, slot) == n;
  }
}
