/** The times of batches, giving everything up, the ends not run yet, and whether a
    flush must wait. */
module ConfirmingTimes {
  import opened Common
  import opened Flags
  import opened NumberPairs
  import opened Confirming
  import opened ConfirmingBooks
  import opened ConfirmingSends
  import opened ConfirmingRuns
  import opened ConfirmingEnds

  lemma TimesChanged(byId: Batches, byDue: set<(Time, Id)>, id: Id, c: Batch)
    requires DueIndexed(byId, byDue) && DueCurrent(byId, {}) && id in byId && c.due == byId[id].due
    ensures DueIndexed(byId[id := c], byDue) && DueCurrent(byId[id := c], {id})
  {
  }

  lemma ResentHold(byId: Batches, byId': Batches, usedIds: set<Id>, id: Id, now: Time)
    requires ResentBatches(byId, byId', usedIds, id, now) && AllHold(byId)
    ensures AllHold(byId')
  {
  }

  lemma ResentParts(k: Books, k': Books, id: Id, indexes: seq<nat>, now: Time)
    requires Resent(k, k', id, indexes, now)
    ensures k'.last == k.last && k.usedIds <= k'.usedIds
    ensures ResentBatches(k.byId, k'.byId, k.usedIds, id, now)
  {
  }

  /** A batch whose every unresolved message went again is forgotten. */
  lemma AllResent(k: Books, k': Books, id: Id, indexes: seq<nat>, now: Time)
    requires BooksOk(k') && Resent(k, k', id, indexes, now)
    requires id in k.byId && forall i :: 0 <= i < |k.byId[id].resolved| && !k.byId[id].resolved[i] ==> i in indexes
    ensures id !in k'.byId
  {
    if id in k'.byId {
      BatchIsOk(k', id);
      var flags := k'.byId[id].resolved;
      ClearNone(flags);
      var i :| 0 <= i < |flags| && !flags[i];
      assert Open(k'.byId, Slot(id, i));
      OpenSlot(k', id, i);
    }
  }

  /** While a timer's handler runs: the batches that may be due are `todo`. */
  ghost predicate DueLeft(byId: Batches, todo: set<Id>, now: Time) {
    && (forall id :: id in byId && byId[id].due <= now ==> id in todo)
    && (forall id :: id in byId && id in todo ==> byId[id].due <= now)
  }

  lemma DueStart(byId: Batches, byDue: set<(Time, Id)>, todo: set<Id>, now: Time)
    requires DueIndexed(byId, byDue) && now < NEVER
    requires forall id :: id in todo <==> exists t :: (t, id) in byDue && t <= now
    ensures DueLeft(byId, todo, now)
  {
    forall id | id in byId && byId[id].due <= now
      ensures id in todo
    {
      assert (byId[id].due, id) in byDue;
    }
    forall id | id in byId && id in todo
      ensures byId[id].due <= now
    {
      var t :| (t, id) in byDue && t <= now;
    }
  }

  lemma DueGone(byId: Batches, byId': Batches, usedIds: set<Id>, todo: set<Id>, now: Time, id: Id)
    requires DueLeft(byId, todo, now) && OneGone(byId, byId', usedIds, id, now) && todo <= usedIds
    ensures DueLeft(byId', todo - {id}, now)
  {
  }

  /** While the batches due go: those gone stay gone, the others are as they were. */
  ghost predicate Going(k: Books, k': Books, due: set<Id>, todo: set<Id>, now: Time, clock: Time) {
    && k'.last == k.last && todo <= due <= k'.usedIds && (due - todo) !! k'.byId.Keys
    && Untouched(k.byId, k'.byId, due) && DueLeft(k'.byId, todo, now)
    && Late(k, k', clock) && KeepsDeadlines(k, k') && k.usedIds <= k'.usedIds && NewIds(k.byId, k'.byId, k.usedIds)
  }

  lemma GoingBegins(k: Books, due: set<Id>, now: Time, clock: Time)
    requires due <= k.usedIds && DueLeft(k.byId, due, now)
    ensures Going(k, k, due, due, now, clock)
  {
    LateNone(k, clock);
  }

  lemma GoingOn(k: Books, k': Books, k'': Books, due: set<Id>, todo: set<Id>, now: Time, id: Id, clock: Time, clock': Time)
    requires Rested(k) && Rested(k') && Rested(k'') && Going(k, k', due, todo, now, clock) && id in todo && clock <= clock'
    requires k''.last == k'.last && k'.usedIds <= k''.usedIds
    requires Late(k', k'', clock') && KeepsDeadlines(k', k'') && OneGone(k'.byId, k''.byId, k'.usedIds, id, now)
    ensures Going(k, k'', due, todo - {id}, now, clock')
  {
    hide BooksOk, Late, KeepsDeadlines, OneGone, Untouched, DueLeft, NewIds;
    OneGoneNew(k'.byId, k''.byId, k'.usedIds, id, now);
    NewIdsTrans(k.byId, k'.byId, k''.byId, k.usedIds, k'.usedIds);
    DueGone(k'.byId, k''.byId, k'.usedIds, todo, now, id);
    StayGone(k'.byId, k''.byId, k'.usedIds, id, now, due - todo, due);
    LateTrans(k, k', k'', clock, clock');
    UntouchedTrans(k.byId, k'.byId, k''.byId, due);
    assert due - (todo - {id}) == (due - todo) + {id};
  }

  lemma GoingNot(k: Books, k': Books, due: set<Id>, todo: set<Id>, now: Time, id: Id, clock: Time)
    requires Going(k, k', due, todo, now, clock) && id !in k'.byId
    ensures Going(k, k', due, todo - {id}, now, clock)
  {
    hide Late, KeepsDeadlines, Untouched, NewIds;
  }

  lemma GoingDue(k: Books, k': Books, due: set<Id>, todo: set<Id>, now: Time, id: Id, clock: Time)
    requires Going(k, k', due, todo, now, clock) && id in todo && id in k'.byId
    ensures k'.byId[id].due <= now
  {
  }

  lemma OneGoneNew(byId: Batches, byId': Batches, usedIds: set<Id>, id: Id, now: Time)
    requires OneGone(byId, byId', usedIds, id, now)
    ensures NewIds(byId, byId', usedIds)
  {
  }

  lemma GoingOver(k: Books, k': Books, due: set<Id>, now: Time, clock: Time)
    requires Rested(k) && Rested(k') && DueLeft(k.byId, due, now) && Going(k, k', due, {}, now, clock)
    ensures Untouched(k.byId, k'.byId, DueBy(k.byId, now)) && DueBy(k.byId, now) !! k'.byId.Keys
    ensures HeldBut(k.log.places, k'.log.places, DueBy(k.byId, now))
    ensures forall id :: id in k'.byId ==> now < k'.byId[id].due
    ensures Late(k, k', clock) && KeepsDeadlines(k, k') && k'.last == k.last
    ensures k.usedIds <= k'.usedIds && NewIds(k.byId, k'.byId, k.usedIds)
    ensures Unbroken(k.log.ended, k'.log.ended) ==> SentOn(k, k', DueBy(k.byId, now), clock)
  {
    hide BooksOk, Late, KeepsDeadlines, HeldBut, Unbroken, SentOn, NewIds;
    if Unbroken(k.log.ended, k'.log.ended) {
      assert forall j :: j in k.byId && j in k'.byId ==> k'.byId[j] == k.byId[j];
      MovedOn(k, k', due, clock);
      StartDue(k.byId, due, now);
      FewerGone(k, k', due, DueBy(k.byId, now), clock);
    }
    StartDue(k.byId, due, now);
    NotDueUntouched(k.byId, k'.byId, due, now);
    StillHeld(k, k', DueBy(k.byId, now));
  }

  lemma FewerGone(k: Books, k': Books, gone: set<Id>, fewer: set<Id>, now: Time)
    requires SentOn(k, k', gone, now) && fewer <= gone
    ensures SentOn(k, k', fewer, now)
  {
  }

  /** Messages taken out of a batch, through `taken` to `left`, and ready to go. */
  ghost predicate Taken(k: Books, taken: Books, left: Books, id: Id, indexes: seq<nat>, records: seq<Record>, late: bool) {
    && BooksOk(taken) && Taking(k, taken, id, indexes, GivenUp(NotConfirmed)) && (!late ==> taken.log.ended == k.log.ended)
    && LeftBehind(taken.byId, left.byId, id) && left == taken.(byId := left.byId)
    && RecordsOk(left, records) && MovingIn(left.log.moving, records) && Zeros(records) == 0 && (late ==> records == [])
  }

  lemma TakenParts(works: nat -> bool, at: nat, k: Books, taken: Books, left: Books, id: Id, indexes: seq<nat>,
                   records: seq<Record>, late: bool)
    requires Taken(k, taken, left, id, indexes, records, late)
    ensures RecordsOk(left, records) && MovingIn(left.log.moving, records) && Zeros(records) == 0 && (late ==> records == [])
    ensures Clean(works, at, at, k.log.ended, left.log.ended)
  {
    hide BooksOk, Taking, LeftBehind, RecordsOk, MovingIn, Zeros, Clean;
    TakingClean(works, at, k, taken, id, indexes, GivenUp(NotConfirmed));
  }

  lemma TakenSent(k: Books, taken: Books, left: Books, k': Books, id: Id, indexes: seq<nat>, records: seq<Record>, late: bool,
                  now: Time, terms: Terms)
    requires BooksOk(k) && BooksOk(k') && id in k.byId && Taken(k, taken, left, id, indexes, records, late)
    requires late == (k.byId[id].deadline <= now) && Sending(left, k', terms) && k'.last == left.last && TermsOf(terms, k.byId[id])
    requires records == [] ==> k' == left
    ensures Resent(k, k', id, indexes, now) && NewPlaced(k.byId, k'.byId, terms.goesBy)
  {
    hide BooksOk, Taking, LeftBehind, RecordsOk, MovingIn, Zeros, Sending, Resent, NewPlaced;
    ResentFrom(k, taken, left, k', id, indexes, now, GivenUp(NotConfirmed), terms);
    PlacedNew(k, taken, left, k', id, indexes, GivenUp(NotConfirmed), terms);
  }

  lemma DueIs(byId: Batches, id: Id)
    requires DueCurrent(byId, {}) && id in byId
    ensures byId[id].due == DueOf(byId[id]) == DueOf(byId[id].(placedOn := None))
  {
  }

  /** While the batches written on a connection that closed go again: the others placed
      on it are placed on none, and the rest are as they were. */
  ghost predicate Closing(k: Books, k': Books, placed: set<Id>, written: set<Id>, again: set<Id>, clock: Time) {
    && k'.last == k.last && k.usedIds <= k'.usedIds && NewIds(k.byId, k'.byId, k.usedIds)
    && Late(k, k', clock) && KeepsDeadlines(k, k') && written <= placed <= k.byId.Keys
    && Untouched(k.byId, k'.byId, placed)
    && (forall id :: id in placed && (id !in written || id in again) ==>
          id in k'.byId && k'.byId[id] == k.byId[id].(placedOn := None))
    && (written - again) !! k'.byId.Keys
  }

  lemma ClosingBegins(k: Books, k': Books, placed: set<Id>, written: set<Id>, clock: Time)
    requires Late(k, k', clock) && KeepsDeadlines(k, k') && k'.last == k.last && k'.usedIds == k.usedIds
    requires k'.byId.Keys == k.byId.Keys && written <= placed <= k.byId.Keys && Untouched(k.byId, k'.byId, placed)
    requires forall id :: id in placed ==> k'.byId[id] == k.byId[id].(placedOn := None)
    ensures Closing(k, k', placed, written, written, clock)
  {
    hide Late, KeepsDeadlines;
  }

  lemma ClosingHas(k: Books, k': Books, placed: set<Id>, written: set<Id>, again: set<Id>, clock: Time, id: Id)
    requires Closing(k, k', placed, written, again, clock) && id in again && again <= written
    ensures id in k'.byId
  {
    hide Late, KeepsDeadlines, NewIds;
  }

  lemma ClosingOn(k: Books, k': Books, k'': Books, placed: set<Id>, written: set<Id>, again: set<Id>, id: Id, clock: Time,
                  clock': Time)
    requires Rested(k) && Rested(k') && Rested(k'') && Closing(k, k', placed, written, again, clock) && clock <= clock'
    requires id in again && again <= written && written <= k.usedIds && k''.last == k'.last && k'.usedIds <= k''.usedIds
    requires Late(k', k'', clock') && KeepsDeadlines(k', k'') && ResentBatches(k'.byId, k''.byId, k'.usedIds, id, clock')
    requires id !in k''.byId
    ensures Closing(k, k'', placed, written, again - {id}, clock')
  {
    hide BooksOk, Late, KeepsDeadlines, ResentBatches, OneGone, Untouched, NewIds;
    OneGoneBy(k'.byId, k''.byId, k'.usedIds, id, clock', clock');
    OneGoneNew(k'.byId, k''.byId, k'.usedIds, id, clock');
    NewIdsTrans(k.byId, k'.byId, k''.byId, k.usedIds, k'.usedIds);
    StayGone(k'.byId, k''.byId, k'.usedIds, id, clock', written - again, placed);
    OthersStay(k'.byId, k''.byId, k'.usedIds, id, clock');
    UntouchedTrans(k.byId, k'.byId, k''.byId, placed);
    LateTrans(k, k', k'', clock, clock');
    assert written - (again - {id}) == (written - again) + {id};
  }

  lemma OthersStay(byId: Batches, byId': Batches, usedIds: set<Id>, id: Id, now: Time)
    requires OneGone(byId, byId', usedIds, id, now)
    ensures forall j :: j in byId && j != id ==> j in byId' && byId'[j] == byId[j]
  {
  }

  lemma ClosingOver(k: Books, k': Books, placed: set<Id>, written: set<Id>, clock: Time)
    requires Rested(k) && Rested(k') && Closing(k, k', placed, written, {}, clock)
    ensures k'.last == k.last && Late(k, k', clock) && KeepsDeadlines(k, k')
    ensures k.usedIds <= k'.usedIds && NewIds(k.byId, k'.byId, k.usedIds)
    ensures Untouched(k.byId, k'.byId, placed) && HeldBut(k.log.places, k'.log.places, placed)
    ensures forall id :: id in written ==> id !in k'.byId
    ensures forall id :: id in placed && id !in written ==> id in k'.byId && k'.byId[id] == k.byId[id].(placedOn := None)
    ensures Unbroken(k.log.ended, k'.log.ended) ==> SentOn(k, k', written, clock)
  {
    hide BooksOk, Late, KeepsDeadlines, HeldBut, Unbroken, SentOn, NewIds;
    StillHeld(k, k', placed);
    if Unbroken(k.log.ended, k'.log.ended) {
      forall j | j in k.byId && j in k'.byId ensures SameMessages(k.byId[j], k'.byId[j]) {
        assert j !in placed ==> k'.byId[j] == k.byId[j];
      }
      MovedOn(k, k', written, clock);
    }
  }

  lemma ArmedFiring(byDue: set<(Time, Id)>)
    ensures Armed(byDue, Firing)
  {
  }

  lemma ArmedAgain(byDue: set<(Time, Id)>, timer: Timer)
    requires if byDue == {} then timer == Idle else Armed(byDue, timer)
    ensures Armed(byDue, timer)
  {
  }

  lemma DueUsed(k: Books, byDue: set<(Time, Id)>, todo: set<Id>)
    requires BooksOk(k) && DueIndexed(k.byId, byDue)
    requires forall id :: id in todo ==> exists t :: (t, id) in byDue
    ensures todo <= k.usedIds
  {
    hide EndsOk, Followed, BatchesOk, Placed, Conserved;
    forall id | id in todo
      ensures id in k.usedIds
    {
      var t :| (t, id) in byDue;
      assert (t, id).1 in k.byId;
    }
  }

  lemma StartDue(byId: Batches, todo: set<Id>, now: Time)
    requires DueLeft(byId, todo, now)
    ensures DueBy(byId, now) <= todo && forall id :: id in byId && id in todo ==> byId[id].due <= now
  {
  }

  lemma ForgottenHold(byId: Batches, id: Id)
    requires AllHold(byId)
    ensures AllHold(byId - {id})
  {
  }

  // Giving everything up

  lemma NothingHeld(k: Books)
    requires BooksOk(k) && forall id :: id in k.byId ==> k.byId[id].unresolved == 0
    ensures k.log.places == map[]
    ensures BooksOk(k.(byId := map[]))
  {
    hide EndsOk, Conserved, Clear, OneSide;
    forall s
      ensures !Open(k.byId, s)
    {
      if s.id in k.byId {
        ClearNone(k.byId[s.id].resolved);
      }
    }
    var none: Batches := map[];
    assert forall s :: !Open(none, s);
    assert forall n :: n !in k.log.places;
  }

  /** A client that has sent nothing. */
  lemma NoBooks(k: Books)
    requires k.last == 0 && k.byId == map[] && k.unconfirmed == 0 && k.ends == [] && k.marks == {0}
    requires k.log == Log(map[], map[], {}, {}, map[], {})
    ensures BooksOk(k) && Deadlines(k) == map[]
  {
  }

  lemma IndexedNone(ended: map<nat, Outcome>)
    ensures Indexed(map[], map[], map[], ended, {})
    ensures DueIndexed(map[], {}) && DueCurrent(map[], {}) && Armed({}, Idle)
  {
  }

  /** Batches given up on, one after the other. */
  ghost predicate GivingUp(k: Books, k': Books, left: set<Id>, outcome: Outcome) {
    && k'.byId.Keys == k.byId.Keys && k'.last == k.last && k'.log.moving == k.log.moving
    && (forall id :: id in k'.byId && id !in left ==> k'.byId[id].unresolved == 0)
    && Fewer(k.log.places, k'.log.places)
    && OnlyWith(k.log.places, k.log.ended, k'.log.ended, outcome)
  }

  lemma GivingUpStep(k: Books, k': Books, k'': Books, left: set<Id>, id: Id, outcome: Outcome)
    requires BooksOk(k') && GivingUp(k, k', left, outcome) && id in k'.byId
    requires RangeResolved(k', k'', id, 0, |k'.byId[id].resolved|, outcome)
    ensures GivingUp(k, k'', left - {id}, outcome)
  {
    hide BooksOk, OpenNumbers, Clear, Mark, EndAll, OnlyWith;
    WholeBatch(k', k'', id, outcome);
    OpenInPlaces(k', id, 0, |k'.byId[id].resolved|);
    OnlyWithMore(k.log.places, k'.log.places, k.log.ended, k'.log.ended, OpenNumbers(k'.byId[id], 0, |k'.byId[id].resolved|), outcome);
  }

  lemma GivingUpStart(k: Books, outcome: Outcome)
    ensures GivingUp(k, k, k.byId.Keys, outcome)
  {
  }

  // The ends not run yet

  lemma EndsRun(ends: seq<(nat, bool)>, told: map<nat, bool>, ran: set<nat>)
    requires EndsOk(ends, told, ran)
    ensures EndsOk([], told, ran + (set e | e in ends :: e.0))
    ensures ran + (set e | e in ends :: e.0) == told.Keys
  {
    forall n | n in told
      ensures n in ran + (set e | e in ends :: e.0)
    {
      if n !in ran {
        var i :| 0 <= i < |ends| && ends[i].0 == n;
        assert ends[i] in ends;
      }
    }
    forall n | n in (set e | e in ends :: e.0)
      ensures n in told
    {
      var e :| e in ends && e.0 == n;
      var i :| 0 <= i < |ends| && ends[i] == e;
    }
  }

  lemma RunBooks(k: Books)
    requires BooksOk(k)
    ensures BooksOk(k.(ends := [], log := k.log.(ran := k.log.ran + (set e | e in k.ends :: e.0))))
    ensures k.log.ran + (set e | e in k.ends :: e.0) == k.log.told.Keys
    ensures forall n :: n in k.log.told <==> n in k.log.ended && n in k.log.follows
  {
    hide EndsOk, BatchesOk, Placed, Conserved, MarksOk;
    EndsRun(k.ends, k.log.told, k.log.ran);
  }

  // Whether a flush must wait

  /** A run has a number waited for. */
  lemma RunWaits(run: Run, key: nat, b: Batch, byId: Batches, places: Places, ended: map<nat, Outcome>) returns (n: nat)
    requires RunOk(key, run, b, ended) && Placed(byId, places) && run.batch in byId && byId[run.batch] == b
    ensures n in places && Spans(run, key, n)
  {
    var i := OpenInside(b.resolved, run.index, run.index + run.count);
    hide Clear;
    assert Open(byId, Slot(run.batch, i));
    n := b.Number(i);
  }

  /** A run that begins at or below a mark has a number waited for there: its
      batch's numbers are all on that side. */
  lemma RunBelowWaits(runs: Runs, k: Books, mark: nat, key: nat) returns (n: nat)
    requires BooksOk(k) && Indexed(runs, k.byId, k.log.places, k.log.ended, {})
    requires mark in k.marks && key in runs && key <= mark
    ensures n in k.log.places && n <= mark
  {
    hide EndsOk, Followed, Clear, BatchesOk, Placed, Disjoint, Covered, OneSide;
    var run, b := runs[key], k.byId[runs[key].batch];
    n := RunWaits(run, key, b, k.byId, k.log.places, k.log.ended);
    BatchIsOk(k, run.batch);
    SpannedSide(run, key, b, k.log.ended, k.marks, mark, n);
  }

  lemma SpannedSide(run: Run, key: nat, b: Batch, ended: map<nat, Outcome>, marks: set<nat>, mark: nat, n: nat)
    requires RunOk(key, run, b, ended) && BatchOk(b) && OneSide(b, marks) && Spans(run, key, n)
    requires mark in marks && key <= mark
    ensures n <= mark
  {
    hide Clear;
    assert b.Number(run.index) == key && b.Number(run.index + (n - key)) == n;
  }

  lemma NoRunWaits(runs: Runs, k: Books, mark: nat)
    requires BooksOk(k) && Indexed(runs, k.byId, k.log.places, k.log.ended, {})
    requires forall key :: key in runs ==> mark < key
    ensures forall n :: n in k.log.places ==> mark < n
    ensures k.log.moving == {} ==> forall n :: 1 <= n <= mark && n <= k.last ==> n in k.log.ended
  {
    hide EndsOk, Followed, Clear, KeysListed, BatchesOk, Placed;
    forall n | n in k.log.places
      ensures mark < n
    {
      var key :| key in runs && Holds(runs[key], key, n, k.log.places[n]);
    }
  }

  lemma GivingUpKeys(k: Books, k': Books, left: set<Id>, outcome: Outcome)
    requires GivingUp(k, k', left, outcome)
    ensures k'.byId.Keys == k.byId.Keys
  {
  }

  lemma GivenUpAll(k: Books, k': Books, outcome: Outcome)
    requires GivingUp(k, k', {}, outcome)
    ensures k'.last == k.last && k'.log.moving == k.log.moving
    ensures forall id :: id in k'.byId ==> k'.byId[id].unresolved == 0
    ensures OnlyWith(k.log.places, k.log.ended, k'.log.ended, outcome)
  {
  }

  lemma CountNone(k: Books)
    requires BooksOk(k) && k.log.places == map[]
    ensures k.unconfirmed == 0
  {
  }

  lemma DueEnds(k: Books)
    requires BooksOk(k)
    ensures forall i :: 0 <= i < |k.ends| ==>
                          k.ends[i].0 in k.log.ended && k.ends[i].0 !in k.log.ran && k.ends[i].1 == k.log.ended[k.ends[i].0].Processed?
    ensures forall i, j :: 0 <= i < j < |k.ends| ==> k.ends[i].0 != k.ends[j].0
  {
    hide BatchesOk, Placed, Conserved;
  }

  // A CONFIRMATION's three lists

  /** The segments cover exactly the messages waited for that the list names. */
  ghost predicate Exactly(places: Places, found: seq<Segment>, pairs: seq<U64>) {
    forall n :: n in places ==> (Found(found, places[n]) <==> Names(pairs, n))
  }

  lemma FoundNamed(runs: Runs, byId: Batches, places: Places, ended: map<nat, Outcome>, s: Segment, pairs: seq<U64>, n: nat)
    requires Indexed(runs, byId, places, ended, {}) && Placed(byId, places) && SegmentOk(s, runs, pairs)
    requires n in places && InSegment(s, places[n])
    ensures Names(pairs, n)
  {
    hide Disjoint, Covered, Clear, Names;
    var run, i := runs[s.key], places[n].index;
    assert RunOk(s.key, run, byId[s.batch], ended);
    assert NamedAt(pairs, run, s.key, i);
    assert NumberAt(byId, places[n]) == n;
    assert byId[s.batch].Number(i) == s.key + (i - run.index);
  }

  lemma FoundExactly(runs: Runs, byId: Batches, places: Places, ended: map<nat, Outcome>, found: seq<Segment>, pairs: seq<U64>)
    requires Indexed(runs, byId, places, ended, {}) && Placed(byId, places)
    requires forall j :: 0 <= j < |found| ==> SegmentOk(found[j], runs, pairs)
    requires forall n :: n in places && Names(pairs, n) ==> Found(found, places[n])
    ensures Exactly(places, found, pairs)
    ensures forall j :: 0 <= j < |found| ==> SegmentAt(found[j], runs, byId)
  {
    hide Indexed, Placed, SegmentOk, Names, SegmentAt, InSegment;
    forall n | n in places && Found(found, places[n])
      ensures Names(pairs, n)
    {
      var j :| 0 <= j < |found| && InSegment(found[j], places[n]);
      FoundNamed(runs, byId, places, ended, found[j], pairs, n);
    }
    forall j | 0 <= j < |found|
      ensures SegmentAt(found[j], runs, byId)
    {
      SegmentIsAt(found[j], runs, byId, places, ended, pairs);
    }
  }

  /** Some group of messages of a batch holds a slot. */
  ghost predicate Touched(groups: seq<(Id, seq<nat>)>, slot: Slot) {
    exists g :: 0 <= g < |groups| && groups[g].0 == slot.id && slot.index in groups[g].1
  }

  ghost predicate GroupsFit(groups: seq<(Id, seq<nat>)>, byId: Batches) {
    forall g :: 0 <= g < |groups| ==> groups[g].0 in byId ==> GroupFits(groups[g].1, |byId[groups[g].0].resolved|)
  }

  ghost predicate GroupFits(indexes: seq<nat>, count: nat) {
    forall j :: 0 <= j < |indexes| ==> indexes[j] < count
  }

  lemma TouchedMore(groups: seq<(Id, seq<nat>)>, more: (Id, seq<nat>), slot: Slot)
    ensures Touched(groups + [more], slot) <==> Touched(groups, slot) || (more.0 == slot.id && slot.index in more.1)
  {
    var all := groups + [more];
    assert all[|groups|] == more;
    if Touched(groups, slot) {
      var g :| 0 <= g < |groups| && groups[g].0 == slot.id && slot.index in groups[g].1;
      assert all[g] == groups[g];
    }
    if Touched(all, slot) {
      var g :| 0 <= g < |all| && all[g].0 == slot.id && slot.index in all[g].1;
      assert g < |groups| ==> all[g] == groups[g];
    }
  }

  function Indexes(begin: nat, end: nat): seq<nat>
    requires begin <= end
  {
    seq(end - begin, (i: nat) => begin + i)
  }

  lemma IndexesHave(begin: nat, end: nat, index: nat)
    requires begin <= end
    ensures index in Indexes(begin, end) <==> begin <= index < end
  {
    if begin <= index < end {
      assert Indexes(begin, end)[index - begin] == index;
    }
  }

  /** The refused messages, those of segments of one batch in a row together. */
  method Grouped(found: seq<Segment>, ghost runs: Runs, ghost byId: Batches) returns (groups: seq<(Id, seq<nat>)>)
    requires forall j :: 0 <= j < |found| ==> SegmentAt(found[j], runs, byId)
    ensures forall slot :: Touched(groups, slot) <==> Found(found, slot)
    ensures GroupsFit(groups, byId) && forall g :: 0 <= g < |groups| ==> groups[g].0 in byId
  {
    hide SegmentAt, Touched, Found, GroupFits, InSegment, Indexes;
    groups := [];
    var at := 0;
    NoneTouched();
    assert found[..0] == [];
    while at < |found|
      invariant at <= |found|
      invariant forall slot :: Touched(groups, slot) <==> Found(found[..at], slot)
      invariant GroupsFit(groups, byId) && forall g :: 0 <= g < |groups| ==> groups[g].0 in byId
    {
      var s := found[at];
      SegmentFits(s, runs, byId);
      IndexesFit(s.begin, s.end, |byId[s.batch].resolved|);
      ghost var before := groups;
      if groups == [] || groups[|groups| - 1].0 != s.batch {
        groups := groups + [(s.batch, Indexes(s.begin, s.end))];
        forall slot
          ensures Touched(groups, slot) <==> Found(found[..at], slot) || InSegment(s, slot)
        {
          TouchedMore(before, (s.batch, Indexes(s.begin, s.end)), slot);
          SegmentHas(s, slot);
        }
      } else {
        var last := groups[|groups| - 1];
        var front := groups[..|groups| - 1];
        assert groups == front + [last];
        groups := front + [(s.batch, last.1 + Indexes(s.begin, s.end))];
        FitMore(last.1, Indexes(s.begin, s.end), |byId[s.batch].resolved|);
        forall slot
          ensures Touched(groups, slot) <==> Found(found[..at], slot) || InSegment(s, slot)
        {
          TouchedMore(front, last, slot);
          TouchedMore(front, (s.batch, last.1 + Indexes(s.begin, s.end)), slot);
          SegmentHas(s, slot);
        }
      }
      assert found[..at + 1] == found[..at] + [s];
      forall slot
        ensures Touched(groups, slot) <==> Found(found[..at + 1], slot)
      {
        FoundOne(found[..at], s, slot);
      }
      at := at + 1;
    }
    assert found[..at] == found;
  }

  lemma NoneTouched()
    ensures forall slot :: !Touched([], slot) && !Found([], slot)
  {
  }

  lemma SegmentHas(s: Segment, slot: Slot)
    requires s.begin <= s.end
    ensures InSegment(s, slot) <==> s.batch == slot.id && slot.index in Indexes(s.begin, s.end)
  {
    IndexesHave(s.begin, s.end, slot.index);
  }

  lemma IndexesFit(begin: nat, end: nat, count: nat)
    requires begin <= end <= count
    ensures GroupFits(Indexes(begin, end), count)
  {
  }

  lemma FitMore(left: seq<nat>, right: seq<nat>, count: nat)
    requires GroupFits(left, count) && GroupFits(right, count)
    ensures GroupFits(left + right, count)
  {
  }

  /** From `k` to `k'`, messages of `groups` went again and nothing else was
      touched. */
  ghost predicate ResentGroups(k: Books, k': Books, groups: seq<(Id, seq<nat>)>, now: Time) {
    && k'.last == k.last && k.usedIds <= k'.usedIds
    && Late(k, k', now) && KeepsDeadlines(k, k')
    && (forall n :: n in k.log.places && !Touched(groups, k.log.places[n]) ==> n in k'.log.places && k'.log.places[n] == k.log.places[n])
    && (forall n :: n in k.log.places && n in k'.log.places && Touched(groups, k.log.places[n]) ==> k'.log.places[n].id !in k.usedIds)
  }

  lemma ResentGroupsNone(k: Books, now: Time)
    ensures ResentGroups(k, k, [], now)
  {
  }

  lemma ResentOnly(k: Books, k': Books, id: Id, indexes: seq<nat>, now: Time)
    requires Resent(k, k', id, indexes, now)
    ensures k'.last == k.last && k.usedIds <= k'.usedIds && StillEnded(k.log.ended, k'.log.ended)
    ensures forall n :: n in k.log.places && (k.log.places[n].id != id || k.log.places[n].index !in indexes) ==>
      n in k'.log.places && k'.log.places[n] == k.log.places[n]
  {
  }

  /** A number waited for before and after was waited for between. */
  lemma StillThere(k: Books, k': Books, k'': Books, n: nat)
    requires Rested(k) && Rested(k') && Rested(k'') && k.last == k'.last == k''.last
    requires StillEnded(k'.log.ended, k''.log.ended) && n in k.log.places && n in k''.log.places
    ensures n in k'.log.places
  {
    hide BooksOk;
    Given(k, n);
    Given(k'', n);
    WaitedFor(k', n);
  }

  lemma ResentGroup(k: Books, k': Books, k'': Books, groups: seq<(Id, seq<nat>)>, group: (Id, seq<nat>), now: Time, now': Time)
    requires Rested(k) && Rested(k') && Rested(k'') && now <= now'
    requires ResentGroups(k, k', groups, now) && Resent(k', k'', group.0, group.1, now')
    ensures ResentGroups(k, k'', groups + [group], now')
  {
    hide Touched, ResentBatches, BooksOk, Late, KeepsDeadlines, Resent;
    ResentOnly(k', k'', group.0, group.1, now');
    ResentLate(k', k'', group.0, group.1, now');
    LateTrans(k, k', k'', now, now');
    forall n | n in k.log.places && n in k''.log.places && Touched(groups + [group], k.log.places[n])
      ensures k''.log.places[n].id !in k.usedIds
    {
      TouchedMore(groups, group, k.log.places[n]);
      StillThere(k, k', k'', n);
      if k'.log.places[n].id == group.0 && k'.log.places[n].index in group.1 {
        ResentElsewhere(k', k'', group.0, group.1, now', n);
      }
    }
    forall n | n in k.log.places && !Touched(groups + [group], k.log.places[n])
      ensures n in k''.log.places && k''.log.places[n] == k.log.places[n]
    {
      TouchedMore(groups, group, k.log.places[n]);
    }
  }

  ghost predicate HoldBut(byId: Batches, heard: set<Id>) {
    forall id :: id in byId && id !in heard ==> 0 < byId[id].unresolved
  }

  lemma GroupsStillFit(groups: seq<(Id, seq<nat>)>, byId: Batches, byId': Batches, usedIds: set<Id>, id: Id, now: Time)
    requires GroupsFit(groups, byId) && ResentBatches(byId, byId', usedIds, id, now)
    requires forall g :: 0 <= g < |groups| ==> groups[g].0 in usedIds
    ensures GroupsFit(groups, byId')
  {
    hide GroupFits;
  }

  lemma HoldButResent(byId: Batches, byId': Batches, usedIds: set<Id>, id: Id, now: Time, heard: set<Id>)
    requires HoldBut(byId, heard) && ResentBatches(byId, byId', usedIds, id, now)
    ensures HoldBut(byId', heard)
  {
  }

  lemma HoldButEnded(k: Books, k': Books, found: seq<Segment>, outcome: Outcome, before: set<Id>, heard: set<Id>)
    requires SegmentsEnded(k, k', found, outcome, heard) && HoldBut(k.byId, before) && before <= heard
    ensures HoldBut(k'.byId, heard)
  {
  }

  lemma BatchesUsed(k: Books)
    requires BooksOk(k)
    ensures k.byId.Keys <= k.usedIds
  {
  }

  lemma HoldButForgotten(byId: Batches, heard: set<Id>, id: Id)
    requires HoldBut(byId, heard)
    ensures HoldBut(byId - {id}, heard - {id})
    ensures id !in byId || 0 < byId[id].unresolved ==> HoldBut(byId, heard - {id})
  {
  }

  lemma HoldButChanged(byId: Batches, heard: set<Id>, id: Id, c: Batch)
    requires HoldBut(byId, heard) && id in byId && 0 < c.unresolved
    ensures HoldBut(byId[id := c], heard - {id})
  {
  }

  lemma HoldAll(byId: Batches)
    ensures HoldBut(byId, {}) <==> AllHold(byId)
  {
  }

  lemma Unresolved(k: Books, id: Id)
    requires BooksOk(k) && id in k.byId && k.byId[id].unresolved != 0
    ensures 0 < k.byId[id].unresolved
  {
  }

  lemma EndedKeepsMoving(k: Books, k': Books, found: seq<Segment>, outcome: Outcome, heard: set<Id>)
    requires SegmentsEnded(k, k', found, outcome, heard)
    ensures k'.log.moving == k.log.moving && k'.last == k.last
  {
  }
}
