/** When what is waited for goes again: the batches' own times over every history of a
    producer's operations. */
module RetryTimes {
  import opened Common
  import opened Confirming
  import opened ConfirmingBooks
  import opened ConfirmingSends
  import opened ConfirmingRuns
  import opened ConfirmingEnds
  import opened ConfirmingTimes
  import opened ConfirmingHeard
  import opened ConfirmedLedger

  /** What happens, with what sets times. */
  datatype Turn =
    | Wrote(id: Id, at: Time)     // a batch's frame was written
    | NotTaken(id: Id, at: Time)  // nobody took it
    | Heard(processed: seq<U64>, failed: seq<U64>, refused: seq<U64>, at: Time, broken: bool)
    | Fired(now: Time, at: Time, broken: bool)
    | Closed(conn: nat, sent: set<Id>, at: Time, broken: bool)
    | Besides(event: Event)       // sends, drops and the shutdown

  /** The ledger's event of a turn. */
  ghost function Told(e: Turn): Event {
    match e
    case Wrote(_, at) => Retried(at, false)
    case NotTaken(_, at) => Retried(at, false)
    case Heard(processed, failed, refused, at, broken) => Confirmation(processed, failed, refused, at, broken)
    case Fired(_, at, broken) => Retried(at, broken)
    case Closed(_, _, at, broken) => Retried(at, broken)
    case Besides(event) => event
  }

  ghost predicate SameTimes(b: Batch, c: Batch) {
    c.written == b.written && c.retryAt == b.retryAt && c.backoff == b.backoff
  }

  /** The times of batch `id`, `b` before and `c` after a turn. */
  ghost predicate TimesBy(k: Books, e: Turn, id: Id, b: Batch, c: Batch) {
    match e
    case Wrote(x, at) =>
      if id != x then SameTimes(b, c) else
      && c.written && c.backoff == b.backoff
      && c.retryAt <= at + b.retryAfter && c.retryAt <= b.retryAt
      && (c.retryAt == at + b.retryAfter || c.retryAt == b.retryAt)
    case NotTaken(x, at) =>
      if id != x then SameTimes(b, c) else
      && c.written && c.retryAt == at + c.backoff
      && if b.backoff == 0 then c.backoff == 100 else
         c.backoff <= 1000 && c.backoff <= 2 * b.backoff && (c.backoff == 1000 || c.backoff == 2 * b.backoff)
    case Heard(processed, failed, _, at, _) =>
      if !NamedIn(k.log.places, id, processed) && !NamedIn(k.log.places, id, failed) then SameTimes(b, c) else
      && c.written == b.written && c.backoff == 0
      && c.retryAt == if b.written then at + b.retryAfter else b.retryAt
    case Fired(_, _, _) => SameTimes(b, c)
    case Closed(_, _, _, _) => SameTimes(b, c)
    case Besides(_) => SameTimes(b, c)
  }

  /** A turn that a batch does not come through, what it holds gone again or given up on. */
  ghost predicate Leaves(e: Turn, id: Id, b: Batch) {
    match e
    case Fired(now, _, _) => b.deadline <= now || (b.written && b.retryAt <= now)
    case Closed(conn, sent, _, _) => b.placedOn == Some(conn) && (b.written || id in sent)
    case _ => false
  }

  /** A number is held where it was, or by a batch made since. */
  ghost predicate Moves(k: Books, k': Books) {
    forall n :: n in k.log.places && n in k'.log.places ==>
      k'.log.places[n].id == k.log.places[n].id || k'.log.places[n].id !in k.usedIds
  }

  /** What a batch holds that does not leave is still held there. */
  ghost predicate HeldThrough(k: Books, e: Turn, k': Books) {
    forall n :: n in k.log.places && k.log.places[n].id in k.byId && !Leaves(e, k.log.places[n].id, k.byId[k.log.places[n].id]) ==>
      n in k'.log.places && k'.log.places[n] == k.log.places[n]
  }

  /** One turn of a producer's books. */
  ghost predicate Turned(k: Books, e: Turn, k': Books) {
    && Step(LedgerOf(k), Told(e), LedgerOf(k'))
    && k.usedIds <= k'.usedIds && Moves(k, k')
    && (forall id :: id in k.byId && id in k'.byId ==>
          && k'.byId[id].deadline == k.byId[id].deadline && k'.byId[id].retryAfter == k.byId[id].retryAfter
          && TimesBy(k, e, id, k.byId[id], k'.byId[id]))
    && (e.Fired? || e.Closed? ==>
          && (forall id :: id in k.byId ==> (id !in k'.byId <==> Leaves(e, id, k.byId[id])))
          && HeldThrough(k, e, k'))
  }

  ghost predicate History(books: seq<Books>, turns: seq<Turn>) {
    && |books| == |turns| + 1
    && LedgerOf(books[0]) == EMPTY
    && (forall i :: 0 <= i < |books| ==> Rested(books[i]))
    && forall i :: 0 <= i < |turns| ==> Turned(books[i], turns[i], books[i + 1])
  }

  /** Sets the times of batch `id` anew. */
  ghost predicate Renews(k: Books, e: Turn, id: Id) {
    match e
    case NotTaken(x, _) => x == id
    case Heard(processed, failed, _, _, _) => NamedIn(k.log.places, id, processed) || NamedIn(k.log.places, id, failed)
    case _ => false
  }

  /** Number `n` is in batch `id`, to go again by `limit`, or in one made since. */
  ghost predicate OnTheWay(k: Books, used: set<Id>, id: Id, n: nat, limit: Time) {
    && n in k.log.places && used <= k.usedIds
    && (k.log.places[n].id in used ==>
          k.log.places[n].id == id && id in k.byId && k.byId[id].written && k.byId[id].retryAt <= limit)
  }

  lemma HolderIs(k: Books, n: nat)
    requires BooksOk(k) && n in k.log.places
    ensures k.log.places[n].id in k.byId && k.log.places[n].id in k.usedIds
  {
    hide EndsOk, Followed, BatchesOk, Conserved, MarksOk;
    assert Open(k.byId, k.log.places[n]);
  }

  lemma StaysOnTheWay(k: Books, e: Turn, k': Books, used: set<Id>, id: Id, n: nat, limit: Time)
    requires Rested(k') && Turned(k, e, k') && OnTheWay(k, used, id, n, limit) && n in k'.log.places && !Renews(k, e, id)
    ensures OnTheWay(k', used, id, n, limit)
  {
    hide BooksOk, Step, NamedIn;
    HolderIs(k', n);
  }

  /** The timer fired by then moves the number on. */
  lemma FiredMoves(k: Books, e: Turn, k': Books, used: set<Id>, id: Id, n: nat, limit: Time)
    requires Rested(k') && Turned(k, e, k') && OnTheWay(k, used, id, n, limit) && n in k'.log.places && e.Fired? && limit <= e.now
    ensures k'.log.places[n].id !in used
  {
    hide BooksOk, Step, NamedIn;
    HolderIs(k', n);
  }

  lemma {:induction false} OnTheWayUntil(books: seq<Books>, turns: seq<Turn>, s: nat, j: nat, id: Id, n: nat, limit: Time)
    requires History(books, turns) && s <= j < |books| && OnTheWay(books[s], books[s].usedIds, id, n, limit)
    requires forall i :: s <= i < j ==> !Renews(books[i], turns[i], id)
    requires forall i :: s <= i <= j ==> n in books[i].log.places
    ensures OnTheWay(books[j], books[s].usedIds, id, n, limit)
    decreases j
  {
    hide Turned, OnTheWay, Renews, Rested;
    if s < j {
      OnTheWayUntil(books, turns, s, j - 1, id, n, limit);
      assert Turned(books[j - 1], turns[j - 1], books[j]);
      assert !Renews(books[j - 1], turns[j - 1], id);
      StaysOnTheWay(books[j - 1], turns[j - 1], books[j], books[s].usedIds, id, n, limit);
    }
  }

  lemma {:induction false} WaitedThrough(books: seq<Books>, turns: seq<Turn>, s: nat, j: nat, n: nat, deadline: Time)
    requires History(books, turns) && s <= j < |books| && n in Deadlines(books[s]) && Deadlines(books[s])[n] == deadline
    requires forall i :: s <= i < j ==> WaitsThrough(Told(turns[i]), n, deadline)
    ensures n in books[j].log.places && n in Deadlines(books[j]) && Deadlines(books[j])[n] == deadline
    decreases j
  {
    hide Turned, Step, Balanced, Deadlines, WaitsThrough, BooksOk;
    DeadlinesOf(books[j]);
    if s < j {
      WaitedThrough(books, turns, s, j - 1, n, deadline);
      BooksBalanced(books[j - 1]);
      TurnSteps(books[j - 1], turns[j - 1], books[j]);
      assert WaitsThrough(Told(turns[j - 1]), n, deadline);
      WaitsOn(LedgerOf(books[j - 1]), Told(turns[j - 1]), LedgerOf(books[j]), n);
    }
  }

  lemma TurnSteps(k: Books, e: Turn, k': Books)
    requires Turned(k, e, k')
    ensures Step(LedgerOf(k), Told(e), LedgerOf(k'))
  {
  }

  /** A turn after which batch `id`, written, goes again by `limit`. */
  ghost predicate GoesBy(k: Books, e: Turn, id: Id, limit: Time)
    requires id in k.byId
  {
    match e
    case Wrote(x, at) => x == id && at + k.byId[id].retryAfter <= limit
    case NotTaken(x, at) => x == id && at + 1000 <= limit
    case Heard(_, _, _, at, _) => Renews(k, e, id) && k.byId[id].written && at + k.byId[id].retryAfter <= limit
    case _ => false
  }

  lemma SetOnTheWay(k: Books, e: Turn, k': Books, id: Id, n: nat, limit: Time)
    requires Rested(k') && Turned(k, e, k') && id in k.byId && GoesBy(k, e, id, limit)
    requires n in k.log.places && k.log.places[n].id == id && n in k'.log.places
    ensures k'.log.places[n].id in k.usedIds ==> OnTheWay(k', k'.usedIds, id, n, limit)
    ensures k'.log.places[n].id !in k.usedIds || k'.log.places[n].id == id
  {
    hide BooksOk, Step, NamedIn;
    HolderIs(k', n);
  }

  lemma DeadlineIs(k: Books, id: Id, n: nat)
    requires id in k.byId && n in k.log.places && k.log.places[n].id == id
    ensures n in Deadlines(k) && Deadlines(k)[n] == k.byId[id].deadline
  {
  }

  /** In every history: a number whose batch was written at w goes again once the timer
      fires at w + retry_after or later, unless it was named, dropped or past its deadline
      by then, a frame broke, or the batch's times were set anew, by a confirmation of
      another of its messages or because nobody took it; and then by the time set so. */
  lemma GoesAgain(books: seq<Books>, turns: seq<Turn>, s: nat, j: nat, id: Id, n: nat, limit: Time)
    requires History(books, turns) && s < j < |turns| && id in books[s].byId && GoesBy(books[s], turns[s], id, limit)
    requires n in books[s].log.places && books[s].log.places[n].id == id
    requires forall i :: s <= i <= j ==> WaitsThrough(Told(turns[i]), n, books[s].byId[id].deadline)
    requires forall i :: s < i < j ==> !Renews(books[i], turns[i], id)
    requires turns[j].Fired? && limit <= turns[j].now
    ensures n in books[j + 1].log.places && books[j + 1].log.places[n].id !in books[s].usedIds
  {
    hide Turned, OnTheWay, Renews, Rested, WaitsThrough, GoesBy, Told, Moves, Deadlines;
    DeadlineIs(books[s], id, n);
    forall i | s <= i <= j + 1 ensures n in books[i].log.places {
      WaitedThrough(books, turns, s, i, n, books[s].byId[id].deadline);
    }
    assert Turned(books[s], turns[s], books[s + 1]) && Turned(books[j], turns[j], books[j + 1]);
    UsedMore(books[s], turns[s], books[s + 1]);
    SetOnTheWay(books[s], turns[s], books[s + 1], id, n, limit);
    if books[s + 1].log.places[n].id in books[s].usedIds {
      OnTheWayUntil(books, turns, s + 1, j, id, n, limit);
      FiredMoves(books[j], turns[j], books[j + 1], books[s + 1].usedIds, id, n, limit);
    } else {
      StaysElsewhere(books, turns, s, s + 1, j + 1, n);
    }
  }

  lemma UsedMore(k: Books, e: Turn, k': Books)
    requires Turned(k, e, k')
    ensures k.usedIds <= k'.usedIds && Moves(k, k')
  {
  }

  lemma {:induction false} StaysElsewhere(books: seq<Books>, turns: seq<Turn>, s: nat, from: nat, j: nat, n: nat)
    requires History(books, turns) && s <= from <= j < |books| && books[s].usedIds <= books[from].usedIds
    requires forall i :: from <= i <= j ==> n in books[i].log.places
    requires books[from].log.places[n].id !in books[s].usedIds
    ensures books[j].log.places[n].id !in books[s].usedIds && books[s].usedIds <= books[j].usedIds
    decreases j
  {
    hide Turned, Rested;
    if from < j {
      StaysElsewhere(books, turns, s, from, j - 1, n);
      UsedMore(books[j - 1], turns[j - 1], books[j]);
    }
  }

  /** The timer moves what is waited for afterwards exactly if its batch's time had come. */
  lemma FiredExactly(k: Books, e: Turn, k': Books, id: Id, n: nat)
    requires Rested(k') && Turned(k, e, k') && e.Fired? && id in k.byId
    requires n in k.log.places && k.log.places[n].id == id && n in k'.log.places
    ensures k'.log.places[n].id != id <==> k.byId[id].deadline <= e.now || (k.byId[id].written && k.byId[id].retryAt <= e.now)
  {
    hide BooksOk, Step, NamedIn;
    HolderIs(k', n);
  }

  /** A batch written at 0, to go again at 10, one of whose messages is confirmed at 5: the
      timer fired at 10 leaves its other messages where they are. */
  lemma HeldBack(k: Books, k': Books, k'': Books, id: Id, n: nat, pairs: seq<U64>, broken: bool, broken': bool)
    requires Rested(k') && Rested(k'') && id in k.byId && k.byId[id].written && k.byId[id].retryAfter == 10
    requires k.byId[id].retryAt == 10 && k.byId[id].deadline == 1000 && NamedIn(k.log.places, id, pairs)
    requires Turned(k, Heard(pairs, [], [], 5, broken), k') && Turned(k', Fired(10, 10, broken'), k'')
    requires n in k.log.places && k.log.places[n].id == id && n in k'.log.places && k'.log.places[n].id == id
    ensures n in k''.log.places && k''.log.places[n].id == id
  {
    hide BooksOk, Step, NamedIn;
    HolderIs(k', n);
  }

  // The turns the operations take

  lemma SameMoves(k: Books, k': Books)
    requires Rested(k) && Rested(k') && NewIds(k.byId, k'.byId, k.usedIds)
    requires forall j :: j in k.byId && j in k'.byId ==> SameMessages(k.byId[j], k'.byId[j])
    ensures Moves(k, k')
  {
    hide BooksOk, SameMessages;
    forall n | n in k.log.places && n in k'.log.places
      ensures k'.log.places[n].id == k.log.places[n].id || k'.log.places[n].id !in k.usedIds
    {
      HeldElsewhere(k, k', n);
    }
  }

  /** One batch's times set. */
  lemma TurnedOne(k: Books, e: Turn, k': Books, id: Id)
    requires Rested(k) && Rested(k') && Step(LedgerOf(k), Told(e), LedgerOf(k')) && (e.Wrote? || e.NotTaken?) && e.id == id
    requires k'.byId.Keys == k.byId.Keys && k'.usedIds == k.usedIds && Untouched(k.byId, k'.byId, {id})
    requires id in k.byId ==>
      && SameMessages(k.byId[id], k'.byId[id]) && TimesBy(k, e, id, k.byId[id], k'.byId[id])
      && k'.byId[id].deadline == k.byId[id].deadline && k'.byId[id].retryAfter == k.byId[id].retryAfter
    ensures Turned(k, e, k')
  {
    hide BooksOk, Step, Moves;
    SameMoves(k, k');
  }

  /** A batch gone, or all. */
  lemma TurnedLess(k: Books, event: Event, k': Books)
    requires Rested(k) && Rested(k') && Step(LedgerOf(k), event, LedgerOf(k')) && k'.usedIds == k.usedIds
    requires forall id :: id in k'.byId ==> id in k.byId && k'.byId[id] == k.byId[id]
    ensures Turned(k, Besides(event), k')
  {
    hide BooksOk, Step, Moves;
    SameMoves(k, k');
  }

  lemma StepNone(k: Books, at: Time)
    requires Rested(k)
    ensures Step(LedgerOf(k), Retried(at, false), LedgerOf(k))
  {
    hide BooksOk, Deadlines;
    BooksBalanced(k);
  }

  lemma TurnedSent(k: Books, event: Event, k': Books, terms: Terms)
    requires Rested(k) && Rested(k') && Step(LedgerOf(k), event, LedgerOf(k')) && Sending(k, k', terms)
    ensures Turned(k, Besides(event), k')
  {
    hide BooksOk, Step;
  }

  /** Batches that left with the timer or a connection. */
  lemma TurnedAway(k: Books, e: Turn, k': Books, gone: set<Id>)
    requires Rested(k) && Rested(k') && Step(LedgerOf(k), Told(e), LedgerOf(k')) && (e.Fired? || e.Closed?)
    requires k.usedIds <= k'.usedIds && NewIds(k.byId, k'.byId, k.usedIds) && gone !! k'.byId.Keys
    requires forall id :: id in gone <==> id in k.byId && Leaves(e, id, k.byId[id])
    requires forall id :: id in k.byId && id !in gone ==>
      id in k'.byId && k'.byId[id] == k.byId[id].(placedOn := k'.byId[id].placedOn)
    ensures Turned(k, e, k')
  {
    hide BooksOk, Step, Moves, Leaves, HeldThrough;
    SameMoves(k, k');
    StillThrough(k, e, k', gone);
  }

  lemma TurnedFired(k: Books, k': Books, now: Time, at: Time, broken: bool)
    requires Rested(k) && Rested(k') && Step(LedgerOf(k), Retried(at, broken), LedgerOf(k')) && DueCurrent(k.byId, {})
    requires k.usedIds <= k'.usedIds && NewIds(k.byId, k'.byId, k.usedIds)
    requires DueBy(k.byId, now) !! k'.byId.Keys && Untouched(k.byId, k'.byId, DueBy(k.byId, now))
    ensures Turned(k, Fired(now, at, broken), k')
  {
    hide BooksOk, Step, Turned, NewIds;
    TurnedAway(k, Fired(now, at, broken), k', DueBy(k.byId, now));
  }

  lemma TurnedClosed(k: Books, k': Books, conn: nat, sent: set<Id>, at: Time, broken: bool)
    requires Rested(k) && Rested(k') && Step(LedgerOf(k), Retried(at, broken), LedgerOf(k'))
    requires k.usedIds <= k'.usedIds && NewIds(k.byId, k'.byId, k.usedIds)
    requires Untouched(k.byId, k'.byId, PlacedOn(k.byId, conn)) && WrittenOn(k.byId, conn, sent) !! k'.byId.Keys
    requires forall id :: id in PlacedOn(k.byId, conn) && id !in WrittenOn(k.byId, conn, sent) ==>
      id in k'.byId && k'.byId[id] == k.byId[id].(placedOn := None)
    ensures Turned(k, Closed(conn, sent, at, broken), k')
  {
    hide BooksOk, Step, Turned, NewIds;
    TurnedAway(k, Closed(conn, sent, at, broken), k', WrittenOn(k.byId, conn, sent));
  }

  lemma StillThrough(k: Books, e: Turn, k': Books, gone: set<Id>)
    requires BooksOk(k) && BooksOk(k') && forall id :: id in gone <==> id in k.byId && Leaves(e, id, k.byId[id])
    requires forall id :: id in k.byId && id !in gone ==>
      id in k'.byId && k'.byId[id] == k.byId[id].(placedOn := k'.byId[id].placedOn)
    ensures HeldThrough(k, e, k')
  {
    hide EndsOk, Followed, BatchesOk, Conserved, MarksOk, Leaves;
    forall n | n in k.log.places && k.log.places[n].id in k.byId && !Leaves(e, k.log.places[n].id, k.byId[k.log.places[n].id])
      ensures n in k'.log.places && k'.log.places[n] == k.log.places[n]
    {
      var slot := k.log.places[n];
      assert Open(k.byId, slot) && NumberAt(k.byId, slot) == n;
      assert Open(k'.byId, slot) && NumberAt(k'.byId, slot) == n;
    }
  }

  /** The three lists of a CONFIRMATION. */
  lemma HeardMoves(k: Books, k1: Books, k2: Books, k': Books, found: seq<Segment>, found': seq<Segment>,
                   groups: seq<(Id, seq<nat>)>, heard: set<Id>, heard': set<Id>, at: Time)
    requires Rested(k) && Rested(k1) && Rested(k2) && Rested(k')
    requires SegmentsEnded(k, k1, found, Processed, heard) && SegmentsEnded(k1, k2, found', GivenUp(Failed), heard')
    requires ResentGroups(k2, k', groups, at)
    ensures Moves(k, k') && k.usedIds <= k'.usedIds
  {
    hide BooksOk, Found, Touched, BatchesLeft, Deadlines, KeepsDeadlines;
    forall n | n in k.log.places && n in k'.log.places
      ensures k'.log.places[n].id == k.log.places[n].id || k'.log.places[n].id !in k.usedIds
    {
      StillThere(k, k2, k', n);
    }
  }

  lemma MovesSame(k: Books, k': Books, k'': Books)
    requires Moves(k, k') && k''.log.places == k'.log.places
    ensures Moves(k, k'')
  {
  }

  lemma FiredLeaves(k: Books, e: Turn, k': Books)
    requires Turned(k, e, k') && e.Fired?
    ensures forall id :: id in k.byId ==>
      (id !in k'.byId <==> k.byId[id].deadline <= e.now || (k.byId[id].written && k.byId[id].retryAt <= e.now))
  {
    hide Step;
  }

  lemma TurnedHeard(k: Books, e: Turn, k': Books)
    requires Step(LedgerOf(k), Told(e), LedgerOf(k')) && e.Heard? && k.usedIds <= k'.usedIds && Moves(k, k')
    requires forall id :: id in k.byId ==> ConfirmedBatch(k, k', e.processed, e.failed, e.refused, e.at, id)
    ensures Turned(k, e, k')
  {
    hide BooksOk, Step, Moves, NamedIn;
  }
}
