/** Confirmed sends as a program sees them: numbers given, numbers waited for,
    and numbers ended. Each operation of `Confirmer` takes a step of this
    ledger; what holds of every run of it holds of every history of operations. */
module ConfirmedLedger {
  import opened Common
  import opened NumberPairs
  import opened Confirming
  import opened ConfirmingBooks
  import opened ConfirmingSends
  import opened ConfirmingRuns
  import opened ConfirmingEnds
  import opened ConfirmingTimes

  /** The last number given, the numbers waited for with their deadlines, and the
      numbers ended. */
  datatype Ledger = Ledger(last: nat, waiting: map<nat, Time>, ended: map<nat, Outcome>)

  const EMPTY := Ledger(0, map[], map[])

  /** What happens; `broken` says that a frame could not be made, or its messages not be
      read back from one, at the event. */
  datatype Event =
    | Sent(count: nat, deadline: Time, broken: bool)
    | Confirmation(processed: seq<U64>, failed: seq<U64>, refused: seq<U64>, at: Time, broken: bool)
    | Dropped(reason: DropReason)      // a frame given up on
    | Retried(at: Time, broken: bool)  // a frame written or not taken, a connection closed, a timer fired
    | GaveUp(reason: DropReason)       // the client shut down

  /** Each number given is waited for or ended, and not both. */
  ghost predicate Balanced(a: Ledger) {
    && (forall n :: 1 <= n <= a.last <==> n in a.waiting || n in a.ended)
    && a.waiting.Keys !! a.ended.Keys
  }

  /** A message that does not go again: past its deadline, or with a frame broken. */
  ghost predicate NotSentAgain(a: Ledger, n: nat, outcome: Outcome, at: Time, broken: bool)
    requires n in a.waiting
  {
    (broken && outcome == Unsendable) || (outcome == GivenUp(NotConfirmed) && a.waiting[n] <= at)
  }

  /** Why number `n` may end with `outcome` at an event. */
  ghost predicate Caused(a: Ledger, e: Event, n: nat, outcome: Outcome) {
    match e
    case Sent(count, _, broken) => a.last < n <= a.last + count && broken && outcome == Unsendable
    case Confirmation(processed, failed, refused, at, broken) =>
      n in a.waiting &&
      if Names(processed, n) then outcome == Processed
      else if Names(failed, n) then outcome == GivenUp(Failed)
      else Names(refused, n) && NotSentAgain(a, n, outcome, at, broken)
    case Dropped(reason) => n in a.waiting && outcome == GivenUp(reason)
    case Retried(at, broken) => n in a.waiting && NotSentAgain(a, n, outcome, at, broken)
    case GaveUp(reason) => n in a.waiting && outcome == GivenUp(reason)
  }

  /** What an event must end. */
  ghost predicate MustEnd(a: Ledger, e: Event, n: nat) {
    match e
    case Confirmation(processed, failed, _, _, _) => n in a.waiting && (Names(processed, n) || Names(failed, n))
    case GaveUp(_) => n in a.waiting
    case _ => false
  }

  /** One event: numbers waited for stay so or end, those it gives are waited for or
      end, and nothing else changes. */
  ghost predicate Step(a: Ledger, e: Event, b: Ledger) {
    && b.last == a.last + (if e.Sent? then e.count else 0)
    && StillEnded(a.ended, b.ended)
    && (forall n :: n in b.ended && n !in a.ended ==> Caused(a, e, n, b.ended[n]))
    && (forall n :: MustEnd(a, e, n) ==> n in b.ended)
    && (forall n :: n in b.waiting && n in a.waiting ==> b.waiting[n] == a.waiting[n])
    && (forall n :: n in b.waiting && n !in a.waiting ==> e.Sent? && a.last < n <= b.last && b.waiting[n] == e.deadline)
    && (forall n :: n in a.waiting || a.last < n <= b.last ==> n in b.waiting || n in b.ended)
    && b.waiting.Keys !! b.ended.Keys
  }

  /** A history: the ledgers before, between and after the events. */
  ghost predicate Run(ledgers: seq<Ledger>, events: seq<Event>) {
    && |ledgers| == |events| + 1
    && ledgers[0] == EMPTY
    && forall i :: 0 <= i < |events| ==> Step(ledgers[i], events[i], ledgers[i + 1])
  }

  /** In every history, the numbers 1 to the last given are at every moment the
      disjoint union of those waited for and those ended. */
  lemma {:induction false} NothingLost(ledgers: seq<Ledger>, events: seq<Event>, i: nat)
    requires Run(ledgers, events) && i < |ledgers|
    ensures Balanced(ledgers[i])
  {
    if i > 0 {
      NothingLost(ledgers, events, i - 1);
      StepBalanced(ledgers[i - 1], events[i - 1], ledgers[i]);
    }
  }

  lemma StepBalanced(a: Ledger, e: Event, b: Ledger)
    requires Balanced(a) && Step(a, e, b)
    ensures Balanced(b)
  {
    hide Names;
    forall n | n in b.ended && n !in a.ended ensures 1 <= n <= b.last {
      assert Caused(a, e, n, b.ended[n]);
    }
  }

  /** An end is for good. */
  lemma {:induction false} EndsStay(ledgers: seq<Ledger>, events: seq<Event>, i: nat, j: nat, n: nat)
    requires Run(ledgers, events) && i <= j < |ledgers| && n in ledgers[i].ended
    ensures n in ledgers[j].ended && ledgers[j].ended[n] == ledgers[i].ended[n]
    decreases j - i
  {
    if i < j {
      assert Step(ledgers[i], events[i], ledgers[i + 1]);
      EndsStay(ledgers, events, i + 1, j, n);
    }
  }

  /** The event a number ended at. */
  ghost predicate EndedBy(ledgers: seq<Ledger>, events: seq<Event>, i: nat, n: nat)
    requires |ledgers| == |events| + 1
  {
    i < |events| && n !in ledgers[i].ended && n in ledgers[i + 1].ended
  }

  /** Every number that ended did so at one event, which called for that very
      end: processed only by a CONFIRMATION that names it as such, failed only by
      one that names it so, given up on only for the reason told. */
  lemma {:induction false} EndsOnce(ledgers: seq<Ledger>, events: seq<Event>, j: nat, n: nat) returns (i: nat)
    requires Run(ledgers, events) && j < |ledgers| && n in ledgers[j].ended
    ensures i < j && EndedBy(ledgers, events, i, n)
    ensures Caused(ledgers[i], events[i], n, ledgers[j].ended[n])
    ensures forall other: nat :: EndedBy(ledgers, events, other, n) ==> other == i
  {
    i := FirstEnd(ledgers, events, j, n);
    assert Step(ledgers[i], events[i], ledgers[i + 1]);
    EndsStay(ledgers, events, i + 1, j, n);
    forall other: nat | EndedBy(ledgers, events, other, n)
      ensures other == i
    {
      if other < i {
        EndsStay(ledgers, events, other + 1, i, n);
      } else if i < other {
        EndsStay(ledgers, events, i + 1, other, n);
      }
    }
  }

  lemma {:induction false} FirstEnd(ledgers: seq<Ledger>, events: seq<Event>, j: nat, n: nat) returns (i: nat)
    requires Run(ledgers, events) && j < |ledgers| && n in ledgers[j].ended
    ensures i < j && EndedBy(ledgers, events, i, n)
  {
    assert j > 0;
    if n in ledgers[j - 1].ended {
      i := FirstEnd(ledgers, events, j - 1, n);
    } else {
      i := j - 1;
    }
  }

  /** A number waited for has the deadline it was sent with, however often it went
      again since. */
  lemma {:induction false} DeadlineSentWith(ledgers: seq<Ledger>, events: seq<Event>, i: nat, n: nat) returns (s: nat)
    requires Run(ledgers, events) && i < |ledgers| && n in ledgers[i].waiting
    ensures s < i && events[s].Sent? && ledgers[s].last < n <= ledgers[s + 1].last
    ensures ledgers[i].waiting[n] == events[s].deadline
  {
    assert i > 0;
    assert Step(ledgers[i - 1], events[i - 1], ledgers[i]);
    if n in ledgers[i - 1].waiting {
      s := DeadlineSentWith(ledgers, events, i - 1, n);
    } else {
      s := i - 1;
      NothingLost(ledgers, events, i - 1);
      NothingLost(ledgers, events, i);
    }
  }

  predicate Broken(e: Event) {
    (e.Sent? || e.Confirmation? || e.Retried?) && e.broken
  }

  /** What a program hears as NOT_CONFIRMED. */
  predicate NotConfirmedEnd(outcome: Outcome) {
    outcome == GivenUp(NotConfirmed) || outcome == Unsendable
  }

  /** A number told of as not confirmed, other than with its frame or at the shutdown,
      was past the deadline it was sent with, unless a frame broke at that very event. */
  lemma NotBeforeItsDeadline(ledgers: seq<Ledger>, events: seq<Event>, j: nat, n: nat) returns (i: nat, s: nat)
    requires Run(ledgers, events) && j < |ledgers| && n in ledgers[j].ended && NotConfirmedEnd(ledgers[j].ended[n])
    ensures s <= i < j && EndedBy(ledgers, events, i, n)
    ensures events[s].Sent? && ledgers[s].last < n <= ledgers[s + 1].last
    ensures Broken(events[i]) || events[i].Dropped? || events[i].GaveUp? ||
            ((events[i].Retried? || events[i].Confirmation?) && events[s].deadline <= events[i].at)
  {
    i := EndsOnce(ledgers, events, j, n);
    if events[i].Sent? {
      s := i;
      assert Step(ledgers[i], events[i], ledgers[i + 1]);
    } else {
      assert n in ledgers[i].waiting;
      s := DeadlineSentWith(ledgers, events, i, n);
    }
  }

  /** With no frame broken nothing ends for want of one. */
  lemma NothingUnsendable(ledgers: seq<Ledger>, events: seq<Event>, j: nat, n: nat)
    requires Run(ledgers, events) && j < |ledgers| && n in ledgers[j].ended
    requires forall i :: 0 <= i < |events| ==> !Broken(events[i])
    ensures ledgers[j].ended[n] != Unsendable
  {
    var i := EndsOnce(ledgers, events, j, n);
    assert !Broken(events[i]);
  }

  /** What a number waits through: a later send, or a retry or a
      CONFIRMATION that names it neither processed nor failed, with none broken and
      before its deadline. */
  ghost predicate WaitsThrough(e: Event, n: nat, deadline: Time) {
    match e
    case Sent(_, _, _) => true
    case Confirmation(processed, failed, _, at, broken) => !Names(processed, n) && !Names(failed, n) && !broken && at < deadline
    case Retried(at, broken) => !broken && at < deadline
    case Dropped(_) => false
    case GaveUp(_) => false
  }

  /** A number refused, lost or due before its deadline goes on being waited for. */
  lemma WaitsOn(a: Ledger, e: Event, b: Ledger, n: nat)
    requires Balanced(a) && Step(a, e, b) && n in a.waiting && WaitsThrough(e, n, a.waiting[n])
    ensures n in b.waiting && b.waiting[n] == a.waiting[n]
  {
    hide Names, Caused;
    forall outcome ensures !Caused(a, e, n, outcome) {
      NoCause(a, e, n, outcome);
    }
  }

  lemma NoCause(a: Ledger, e: Event, n: nat, outcome: Outcome)
    requires n in a.waiting && n <= a.last && WaitsThrough(e, n, a.waiting[n])
    ensures !Caused(a, e, n, outcome)
  {
  }

  lemma NoCauseSent(a: Ledger, e: Event, n: nat, outcome: Outcome)
    requires e.Sent? && !e.broken
    ensures !Caused(a, e, n, outcome)
  {
  }

  /** In every history: a message sent with no frame broken is waited for, refused and
      lost and due again as often as it may be, until its deadline passes, a
      CONFIRMATION names it, its frame is given up on or the client shuts down. */
  lemma {:induction false} WaitsUntilItsDeadline(ledgers: seq<Ledger>, events: seq<Event>, s: nat, j: nat, n: nat)
    requires Run(ledgers, events) && s < j < |ledgers| && events[s].Sent? && !events[s].broken
    requires ledgers[s].last < n <= ledgers[s + 1].last
    requires forall i :: s < i < j ==> WaitsThrough(events[i], n, events[s].deadline)
    ensures n in ledgers[j].waiting && ledgers[j].waiting[n] == events[s].deadline
    decreases j
  {
    hide Names, Caused;
    var i := j - 1;
    NothingLost(ledgers, events, i);
    assert Step(ledgers[i], events[i], ledgers[j]);
    if s < i {
      WaitsUntilItsDeadline(ledgers, events, s, i, n);
      WaitsOn(ledgers[i], events[i], ledgers[j], n);
    } else {
      forall outcome ensures !Caused(ledgers[i], events[i], n, outcome) {
        NoCauseSent(ledgers[i], events[i], n, outcome);
      }
    }
  }

  /** A number a consumer's library gathered as processed ends processed, unless
      it had ended before: `Encode` is what the consumer writes of what it
      gathered. The last 64-bit word is the one number a list cannot name. */
  lemma ConfirmedEnds(ledgers: seq<Ledger>, events: seq<Event>, i: nat, gathered: seq<U64>, n: U64)
    requires Run(ledgers, events) && i < |events|
    requires events[i].Confirmation? && events[i].processed == Encode(gathered)
    requires NonZero(gathered) && WORD - 1 !in gathered && n in gathered && n <= ledgers[i].last
    ensures n in ledgers[i + 1].ended
    ensures n !in ledgers[i].ended ==> ledgers[i + 1].ended[n] == Processed
  {
    NothingLost(ledgers, events, i);
    assert Step(ledgers[i], events[i], ledgers[i + 1]);
    ConfirmationNames(gathered);
    RoundTrip(gathered);
    assert Names(events[i].processed, n);
    assert n != 0;
    if n in ledgers[i].waiting {
      assert MustEnd(ledgers[i], events[i], n);
    }
  }

  /** Once the client gave up, nothing it sent is waited for. */
  lemma NothingWaits(ledgers: seq<Ledger>, events: seq<Event>, i: nat)
    requires Run(ledgers, events) && i < |events| && events[i].GaveUp?
    ensures ledgers[i + 1].waiting == map[]
  {
    var a, b := ledgers[i], ledgers[i + 1];
    NothingLost(ledgers, events, i);
    assert Step(a, events[i], b);
    forall n
      ensures n !in b.waiting
    {
      if n in a.waiting {
        assert MustEnd(a, events[i], n);
      }
    }
  }

  // The ledger of a producer's books, and the steps its operations take

  ghost function LedgerOf(k: Books): Ledger {
    Ledger(k.last, Deadlines(k), k.log.ended)
  }

  lemma BooksBalanced(k: Books)
    requires BooksOk(k) && k.log.moving == {}
    ensures Balanced(LedgerOf(k))
  {
    DeadlinesOf(k);
    hide EndsOk, Followed, BatchesOk, Placed, Deadlines;
  }

  lemma MarkedLedger(k: Books)
    ensures LedgerOf(k.(marks := k.marks + {k.last})) == LedgerOf(k)
  {
  }

  /** Up to a mark, what is waited for is what has not ended. */
  lemma MarkBalanced(k: Books, mark: nat)
    requires BooksOk(k) && k.log.moving == {} && mark in k.marks
    ensures forall n :: 1 <= n <= mark ==> (n in k.log.places <==> n !in k.log.ended)
    ensures 0 !in k.log.places
  {
    hide EndsOk, Followed, BatchesOk, Placed, OneSide, Below;
  }

  lemma StepSent(k: Books, k': Books, count: nat, terms: Terms, broken: bool)
    requires BooksOk(k) && BooksOk(k') && k.log.moving == {} && k'.log.moving == {}
    requires Sending(k, k', terms) && k'.last == k.last + count && (broken || Unbroken(k.log.ended, k'.log.ended))
    ensures Step(LedgerOf(k), Sent(count, terms.deadline, broken), LedgerOf(k'))
  {
    hide BooksOk, NewBatches, Deadlines;
    BooksBalanced(k);
    BooksBalanced(k');
    DeadlinesOf(k);
    DeadlinesOf(k');
    SentDeadlines(k, k', terms);
  }

  lemma StepRetried(k: Books, k': Books, now: Time, broken: bool)
    requires Rested(k) && Rested(k')
    requires k'.last == k.last && Late(k, k', now) && KeepsDeadlines(k, k') && (broken || Unbroken(k.log.ended, k'.log.ended))
    ensures Step(LedgerOf(k), Retried(now, broken), LedgerOf(k'))
  {
    hide BooksOk, Deadlines;
    BooksBalanced(k);
    BooksBalanced(k');
    StillWaiting(k, k');
  }

  lemma StepDropped(k: Books, k': Books, reason: DropReason)
    requires BooksOk(k) && BooksOk(k') && k.log.moving == {} && k'.log.moving == {}
    requires k'.last == k.last && OnlyWith(k.log.places, k.log.ended, k'.log.ended, GivenUp(reason)) && KeepsDeadlines(k, k')
    ensures Step(LedgerOf(k), Dropped(reason), LedgerOf(k'))
    ensures k'.log.places == map[] ==> Step(LedgerOf(k), GaveUp(reason), LedgerOf(k'))
  {
    hide BooksOk, Deadlines;
    BooksBalanced(k);
    BooksBalanced(k');
    DeadlinesOf(k);
    DeadlinesOf(k');
    StillWaiting(k, k');
  }

  /** With no number given, what is waited for was. */
  lemma StillWaiting(k: Books, k': Books)
    requires BooksOk(k) && BooksOk(k') && k.log.moving == {} && k'.log.moving == {} && k'.last == k.last
    requires StillEnded(k.log.ended, k'.log.ended)
    ensures forall n :: n in Deadlines(k') ==> n in Deadlines(k)
  {
    BooksBalanced(k);
    BooksBalanced(k');
  }

  /** The three lists of a CONFIRMATION, one after the other, are one step: a
      number in two lists goes by the first of processed, failed and refused. */
  lemma StepConfirmation(k: Books, k1: Books, k2: Books, k': Books, lists: Event,
                         processed: seq<Segment>, failed: seq<Segment>, refused: seq<Segment>,
                         groups: seq<(Id, seq<nat>)>, heard: set<Id>, heard': set<Id>)
    requires lists.Confirmation?
    requires BooksOk(k) && BooksOk(k1) && BooksOk(k2) && BooksOk(k')
    requires k.log.moving == k1.log.moving == k2.log.moving == k'.log.moving == {}
    requires Exactly(k.log.places, processed, lists.processed) && SegmentsEnded(k, k1, processed, Processed, heard)
    requires Exactly(k1.log.places, failed, lists.failed) && SegmentsEnded(k1, k2, failed, GivenUp(Failed), heard')
    requires Exactly(k2.log.places, refused, lists.refused) && ResentGroups(k2, k', groups, lists.at)
    requires forall slot :: Touched(groups, slot) <==> Found(refused, slot)
    requires lists.broken || Unbroken(k2.log.ended, k'.log.ended)
    ensures Step(LedgerOf(k), lists, LedgerOf(k'))
  {
    hide BooksOk, Found, Touched, Names, BatchesLeft, Deadlines, Late, KeepsDeadlines, OnlyWith, Exactly, Caused;
    BooksBalanced(k);
    BooksBalanced(k1);
    BooksBalanced(k2);
    BooksBalanced(k');
    ListsKeep(k, k1, k2, k', processed, failed, groups, heard, heard', lists.at);
    DeadlinesOf(k);
    var a, b := LedgerOf(k), LedgerOf(k');
    forall n | n in b.ended && n !in a.ended
      ensures Caused(a, lists, n, b.ended[n])
    {
      CauseOf(k, k1, k2, k', lists, processed, failed, refused, groups, heard, heard', n);
    }
    forall n | MustEnd(a, lists, n)
      ensures n in b.ended
    {
      Named(k, k1, k2, k', lists, processed, failed, refused, groups, heard, heard', n);
    }
  }

  /** Through the three lists what stays waited for keeps its deadline, and what
      ended stays ended. */
  lemma ListsKeep(k: Books, k1: Books, k2: Books, k': Books, processed: seq<Segment>, failed: seq<Segment>,
                  groups: seq<(Id, seq<nat>)>, heard: set<Id>, heard': set<Id>, at: Time)
    requires Rested(k) && Rested(k1) && Rested(k2) && Rested(k')
    requires SegmentsEnded(k, k1, processed, Processed, heard) && SegmentsEnded(k1, k2, failed, GivenUp(Failed), heard')
    requires ResentGroups(k2, k', groups, at)
    ensures k.last == k1.last == k2.last == k'.last
    ensures StillEnded(k.log.ended, k1.log.ended) && StillEnded(k1.log.ended, k2.log.ended) && StillEnded(k2.log.ended, k'.log.ended)
    ensures StillEnded(k.log.ended, k'.log.ended)
    ensures KeepsDeadlines(k, k2) && KeepsDeadlines(k, k')
    ensures forall n :: n in Deadlines(k') && n in Deadlines(k) ==> Deadlines(k')[n] == Deadlines(k)[n]
    ensures forall n :: n in Deadlines(k') ==> n in Deadlines(k)
  {
    hide BooksOk, Found, Touched, BatchesLeft, Deadlines;
    SegmentsKeepDeadlines(k, k1, processed, Processed, heard);
    SegmentsKeepDeadlines(k1, k2, failed, GivenUp(Failed), heard');
    KeepsTrans(k, k1, k2);
    KeepsTrans(k, k2, k');
    StillWaiting(k, k');
  }

  /** What a CONFIRMATION refuses and is still waited for is held by a batch made
      since. */
  lemma RefusedMoved(k: Books, k1: Books, k2: Books, k': Books, pairs: seq<U64>,
                     processed: seq<Segment>, failed: seq<Segment>, refused: seq<Segment>,
                     groups: seq<(Id, seq<nat>)>, heard: set<Id>, heard': set<Id>, at: Time)
    requires Rested(k) && Rested(k1) && Rested(k2) && Rested(k')
    requires SegmentsEnded(k, k1, processed, Processed, heard) && SegmentsEnded(k1, k2, failed, GivenUp(Failed), heard')
    requires Exactly(k2.log.places, refused, pairs) && ResentGroups(k2, k', groups, at)
    requires forall slot :: Touched(groups, slot) <==> Found(refused, slot)
    ensures k'.last == k.last
    ensures forall n :: n in k.log.places && n in k'.log.places && Names(pairs, n) ==> k'.log.places[n].id !in k.usedIds
  {
    hide BooksOk, Found, Touched, Names, BatchesLeft, Deadlines, Late, KeepsDeadlines;
    ListsKeep(k, k1, k2, k', processed, failed, groups, heard, heard', at);
    forall n | n in k.log.places && n in k'.log.places && Names(pairs, n) ensures k'.log.places[n].id !in k.usedIds {
      StillThere(k, k2, k', n);
      assert Found(refused, k2.log.places[n]);
    }
  }

  lemma Named(k: Books, k1: Books, k2: Books, k': Books, lists: Event,
              processed: seq<Segment>, failed: seq<Segment>, refused: seq<Segment>,
              groups: seq<(Id, seq<nat>)>, heard: set<Id>, heard': set<Id>, n: nat)
    requires lists.Confirmation? && Rested(k) && Rested(k1) && Rested(k2) && Rested(k')
    requires Exactly(k.log.places, processed, lists.processed) && SegmentsEnded(k, k1, processed, Processed, heard)
    requires Exactly(k1.log.places, failed, lists.failed) && SegmentsEnded(k1, k2, failed, GivenUp(Failed), heard')
    requires ResentGroups(k2, k', groups, lists.at) && n in k.log.places
    requires Names(lists.processed, n) || Names(lists.failed, n)
    ensures n in k'.log.ended
  {
    hide BooksOk, Found, Touched, Names, BatchesLeft, Deadlines, KeepsDeadlines;
    BooksBalanced(k);
    BooksBalanced(k1);
    BooksBalanced(k2);
    DeadlinesOf(k);
    DeadlinesOf(k1);
    DeadlinesOf(k2);
    assert n in k2.log.ended;
  }

  lemma CauseOf(k: Books, k1: Books, k2: Books, k': Books, lists: Event,
                processed: seq<Segment>, failed: seq<Segment>, refused: seq<Segment>,
                groups: seq<(Id, seq<nat>)>, heard: set<Id>, heard': set<Id>, n: nat)
    requires lists.Confirmation? && Rested(k) && Rested(k1) && Rested(k2) && Rested(k')
    requires Exactly(k.log.places, processed, lists.processed) && SegmentsEnded(k, k1, processed, Processed, heard)
    requires Exactly(k1.log.places, failed, lists.failed) && SegmentsEnded(k1, k2, failed, GivenUp(Failed), heard')
    requires Exactly(k2.log.places, refused, lists.refused) && ResentGroups(k2, k', groups, lists.at)
    requires forall slot :: Touched(groups, slot) <==> Found(refused, slot)
    requires lists.broken || Unbroken(k2.log.ended, k'.log.ended)
    requires n in k'.log.ended && n !in k.log.ended
    ensures Caused(LedgerOf(k), lists, n, k'.log.ended[n])
  {
    hide BooksOk, Found, Touched, Names, BatchesLeft, Deadlines;
    ListsKeep(k, k1, k2, k', processed, failed, groups, heard, heard', lists.at);
    DeadlinesOf(k);
    DeadlinesOf(k2);
    Given(k', n);
    WaitedFor(k, n);
    if n in k1.log.ended {
      Given(k1, n);
    } else {
      WaitedFor(k1, n);
      if n in k2.log.ended {
        Given(k2, n);
      } else {
        WaitedFor(k2, n);
        Given(k', n);
      }
    }
  }

  /** The same step, its time read later, with only batches' times changed since. */
  lemma StepLater(k: Books, k3: Books, k': Books, processed: seq<U64>, failed: seq<U64>, refused: seq<U64>, at: Time, at': Time,
                  broken: bool)
    requires Rested(k3) && Rested(k') && k'.log == k3.log && k'.last == k3.last && KeepsDeadlines(k3, k') && at <= at'
    requires Step(LedgerOf(k), Confirmation(processed, failed, refused, at, broken), LedgerOf(k3))
    ensures Step(LedgerOf(k), Confirmation(processed, failed, refused, at', broken), LedgerOf(k'))
  {
    hide BooksOk, Deadlines, Names;
    DeadlinesOf(k3);
    DeadlinesOf(k');
    assert Deadlines(k3) == Deadlines(k');
    var e := Confirmation(processed, failed, refused, at, broken);
    var e' := Confirmation(processed, failed, refused, at', broken);
    var a, b := LedgerOf(k), LedgerOf(k');
    forall n | n in b.ended && n !in a.ended ensures Caused(a, e', n, b.ended[n]) {
      assert Caused(a, e, n, b.ended[n]);
    }
    forall n | MustEnd(a, e', n) ensures n in b.ended {
      assert MustEnd(a, e, n);
    }
  }

  /** What two lists do not name is waited for, before its deadline. */
  ghost predicate StayWaiting(k: Books, k': Books, processed: seq<U64>, failed: seq<U64>, now: Time) {
    forall n :: n in Deadlines(k) && !Names(processed, n) && !Names(failed, n) && now < Deadlines(k)[n] ==> n in k'.log.places
  }

  /** So it is, refused or not, with no frame broken. */
  lemma RefusedWait(k: Books, k': Books, e: Event)
    requires Rested(k) && Rested(k') && e.Confirmation? && Step(LedgerOf(k), e, LedgerOf(k'))
    ensures !e.broken ==> StayWaiting(k, k', e.processed, e.failed, e.at)
  {
    hide BooksOk, Deadlines, Names, Step;
    BooksBalanced(k);
    DeadlinesOf(k');
    forall n | n in Deadlines(k) && !Names(e.processed, n) && !Names(e.failed, n) && e.at < Deadlines(k)[n] && !e.broken
      ensures n in k'.log.places
    {
      WaitsOn(LedgerOf(k), e, LedgerOf(k'), n);
    }
  }

  lemma NoneWaited(k: Books, k': Books)
    requires k'.log.places == map[]
    ensures KeepsDeadlines(k, k')
  {
  }
}
