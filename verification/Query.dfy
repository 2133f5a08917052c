/** A client's query: the request, a search for who can take it, the request sent
    again, and a last wait for a reply to either. What arrives, when time runs out,
    which connections are lost and what becomes of a queued message is any tape of
    events, read in order; how each send goes is given too. */
module Query {
  import opened Common

  type Id = nat
  type Instance = nat
  type Connection = nat

  datatype Kind = DeliveryError | RequestReceived | Ping | Other
  datatype Message = Message(kind: Kind, references: Id, sender: Instance)

  /** What an attempt's tracker says: nothing before it is placed. */
  datatype Tracker = Unplaced | Queued | Sent | Lost

  datatype Event =
    | Arrived(message: Message, connection: Connection)
    | Expired                                // the stage's time is over
    | ConnectionLost(connection: Connection)
    | Written(id: Id)                        // a queued message, at last
    | GivenUpOn(id: Id)

  datatype Stage = Request | Search | Direct | Late

  datatype Attempt = Attempt(id: Id, to: Instance, preferred: Option<Connection>, state: Tracker, struck: bool)

  /** How a stage's wait ended. */
  datatype Outcome = Answered(message: Message) | Refused | Found(message: Message, connection: Connection) | Nobody
                   | WatchGone | Unpinned | TimedOut

  datatype Result = Answer(message: Message) | OperationTimedOut | NotConnected | OperationFailed

  /** How a send ended: a message left queued is placed. */
  datatype Sending = Wrote(connection: Connection) | SendTimedOut(placed: bool) | NoConnection

  function Placed(sending: Sending): Tracker {
    match sending
    case Wrote(_) => Sent
    case SendTimedOut(placed) => if placed then Queued else Unplaced
    case NoConnection => Unplaced
  }

  // What the tape says

  type Tape = seq<Event>

  /** An attempt as it went out: its id, when, what its tracker said then, and the
      connection that wrote it. */
  datatype Out = Out(id: Id, since: nat, placed: Tracker, via: Option<Connection>)

  ghost predicate ErrorAt(tape: Tape, id: Id, i: nat) {
    i < |tape| && tape[i].Arrived? && tape[i].message.kind.DeliveryError? && tape[i].message.references == id
  }

  ghost predicate ErrorIn(tape: Tape, id: Id, begin: nat, end: nat) {
    exists i :: begin <= i < end && ErrorAt(tape, id, i)
  }

  ghost predicate NobodyFrom(tape: Tape, search: Id, connection: Connection, begin: nat, end: nat) {
    exists i :: begin <= i < end && ErrorAt(tape, search, i) && tape[i].connection == connection
  }

  ghost predicate PingAt(tape: Tape, search: Id, i: nat) {
    i < |tape| && tape[i].Arrived? && tape[i].message.kind.Ping? && tape[i].message.references == search
  }

  /** A reply to an attempt that is out. */
  ghost predicate ReplyTo(tape: Tape, out: Out, i: nat) {
    && out.since <= i < |tape| && tape[i].Arrived? && tape[i].message.references == out.id
    && !tape[i].message.kind.DeliveryError? && !tape[i].message.kind.RequestReceived?
  }

  ghost predicate ReplyAt(tape: Tape, out: seq<Out>, i: nat) {
    exists k :: 0 <= k < |out| && ReplyTo(tape, out[k], i)
  }

  ghost predicate NoReply(tape: Tape, out: seq<Out>, end: nat) {
    forall i :: 0 <= i < end ==> !ReplyAt(tape, out, i)
  }

  function Moved(state: Tracker, event: Event, id: Id): Tracker {
    if state.Queued? && event == Written(id) then Sent
    else if state.Queued? && event == GivenUpOn(id) then Lost
    else state
  }

  /** What an attempt's tracker says at a moment. */
  ghost function StateAt(tape: Tape, out: Out, at: nat): Tracker
    requires out.since <= at <= |tape|
    decreases at
  {
    if at == out.since then out.placed else Moved(StateAt(tape, out, at - 1), tape[at - 1], out.id)
  }

  /** Nothing has been told of an attempt yet. */
  ghost predicate NothingTold(tape: Tape, out: Out, at: nat)
    requires at <= |tape|
  {
    forall j :: out.since <= j < at ==> tape[j] != Written(out.id) && tape[j] != GivenUpOn(out.id)
  }

  /** A tracker moves only for an attempt that was queued, and only once something is told
      of it. */
  lemma {:induction false} StateQuiet(tape: Tape, out: Out, at: nat)
    requires out.since <= at <= |tape| && (!out.placed.Queued? || NothingTold(tape, out, at))
    ensures StateAt(tape, out, at) == out.placed
    decreases at
  {
    if out.since < at {
      StateQuiet(tape, out, at - 1);
    }
  }

  /** And then to what is told first. */
  lemma {:induction false} StateTold(tape: Tape, out: Out, at: nat, i: nat)
    requires out.since <= i < at <= |tape| && out.placed.Queued? && NothingTold(tape, out, i)
    requires tape[i] == Written(out.id) || tape[i] == GivenUpOn(out.id)
    ensures StateAt(tape, out, at) == if tape[i] == Written(out.id) then Sent else Lost
    decreases at
  {
    if i < at - 1 {
      StateTold(tape, out, at - 1, i);
    } else {
      StateQuiet(tape, out, i);
    }
  }

  /** Nobody has it, or will: never placed, or given up on. */
  predicate NotOut(state: Tracker) {
    state.Unplaced? || state.Lost?
  }

  // A wait, and the event that ends it

  /** A stage's wait: what it watches, when it began, the search and where it went,
      the attempt sent last, and the attempts somebody may have. */
  datatype Wait = Wait(stage: Stage, watch: Option<Connection>, from: nat, search: Id, all: set<Connection>, last: Id,
                       open: set<Id>)

  /** Every connection searched said it has nobody. */
  ghost predicate NobodyAnywhere(tape: Tape, wait: Wait, end: nat) {
    forall c :: c in wait.all ==> NobodyFrom(tape, wait.search, c, wait.from, end)
  }

  /** Delivery errors were read for all attempts still open when the wait began. */
  ghost predicate NobodyHasIt(tape: Tape, wait: Wait, end: nat) {
    forall id :: id in wait.open ==> ErrorIn(tape, id, wait.from, end)
  }

  ghost predicate LosesWatch(tape: Tape, wait: Wait, i: nat) {
    i < |tape| && wait.watch.Some? && tape[i] == ConnectionLost(wait.watch.value)
  }

  /** Event `i` ends the wait: a reply to any attempt in every stage, else by its
      stage. */
  ghost predicate Ends(tape: Tape, out: seq<Out>, wait: Wait, i: nat)
    requires i < |tape|
  {
    || ReplyAt(tape, out, i) || tape[i].Expired? || LosesWatch(tape, wait, i)
    || match wait.stage
       case Request => ErrorAt(tape, wait.last, i)
       case Direct => ErrorAt(tape, wait.last, i)
       case Search => PingAt(tape, wait.search, i) || NobodyAnywhere(tape, wait, i + 1)
       case Late => NobodyHasIt(tape, wait, i + 1)
  }

  /** What the wait says of the event that ended it. */
  ghost predicate Says(tape: Tape, out: seq<Out>, wait: Wait, i: nat, pinned: bool, outcome: Outcome)
    requires i < |tape|
  {
    match outcome
    case Answered(message) => ReplyAt(tape, out, i) && tape[i].message == message
    case Refused => (wait.stage.Request? || wait.stage.Direct?) && ErrorAt(tape, wait.last, i)
    case Found(message, connection) =>
      wait.stage.Search? && PingAt(tape, wait.search, i) && tape[i] == Arrived(message, connection)
    case Nobody =>
      || (wait.stage.Search? && NobodyAnywhere(tape, wait, i + 1) && ErrorAt(tape, wait.search, i))
      || (wait.stage.Late? && NobodyHasIt(tape, wait, i + 1) && exists id :: ErrorAt(tape, id, i))
    case WatchGone => !pinned && LosesWatch(tape, wait, i)
    case Unpinned => pinned && LosesWatch(tape, wait, i)
    case TimedOut => tape[i].Expired?
  }

  /** The wait ended by the first event that ends it, with what that says; or the
      tape ran out before one came, which is the end of time. */
  ghost predicate Ended(tape: Tape, out: seq<Out>, wait: Wait, pinned: bool, outcome: Outcome, to: nat) {
    wait.from <= to <= |tape| &&
    if wait.from < to && Ends(tape, out, wait, to - 1) then
      && Says(tape, out, wait, to - 1, pinned, outcome)
      && forall i :: wait.from <= i < to - 1 ==> !Ends(tape, out, wait, i)
    else
      outcome.TimedOut? && to == |tape| && forall i :: wait.from <= i < to ==> !Ends(tape, out, wait, i)
  }

  // What is known of the attempts

  /** An attempt against the tape: its tracker is what became of it, and it is struck
      off for a delivery error heard, or, once the last wait began, as not out. */
  ghost predicate AttemptOk(tape: Tape, pos: nat, heard: nat, attempt: Attempt, out: Out, late: bool) {
    && out.id == attempt.id && out.since <= heard <= pos <= |tape|
    && attempt.state == StateAt(tape, out, pos)
    && (ErrorIn(tape, out.id, out.since, heard) ==> attempt.struck)
    && (attempt.struck ==> ErrorIn(tape, out.id, out.since, heard) || (late && NotOut(attempt.state)))
  }

  ghost predicate AttemptsOk(tape: Tape, pos: nat, heard: nat, attempts: seq<Attempt>, out: seq<Out>, late: bool) {
    && |out| == |attempts| <= 2 && heard <= pos <= |tape|
    && forall k :: 0 <= k < |attempts| ==> AttemptOk(tape, pos, heard, attempts[k], out[k], late)
  }

  function Ids(attempts: seq<Attempt>): set<Id> {
    set k | 0 <= k < |attempts| :: attempts[k].id
  }

  ghost predicate IdsOk(attempts: seq<Attempt>, search: Id, next: Id) {
    && (forall i :: 0 <= i < |attempts| ==> 0 < attempts[i].id < next && attempts[i].id != search)
    && (forall i, j :: 0 <= i < j < |attempts| ==> attempts[i].id != attempts[j].id)
    && search < next
  }

  /** The same attempts, their trackers and strikes aside. */
  ghost predicate SameAttempts(attempts: seq<Attempt>, now: seq<Attempt>) {
    && |now| == |attempts|
    && forall k :: 0 <= k < |attempts| ==> now[k] == attempts[k].(state := now[k].state, struck := now[k].struck)
  }

  /** What an event does to the trackers. */
  function Tracked(attempts: seq<Attempt>, event: Event): (now: seq<Attempt>)
    ensures |now| == |attempts|
  {
    seq(|attempts|, k requires 0 <= k < |attempts| =>
          attempts[k].(state := Moved(attempts[k].state, event, attempts[k].id)))
  }

  lemma ErrorInMore(tape: Tape, id: Id, begin: nat, end: nat)
    requires begin <= end
    ensures ErrorIn(tape, id, begin, end + 1) <==> ErrorIn(tape, id, begin, end) || ErrorAt(tape, id, end)
  {
    hide ErrorAt;
    if ErrorAt(tape, id, end) {
      assert begin <= end < end + 1;
    }
  }

  lemma NobodyFromMore(tape: Tape, search: Id, c: Connection, begin: nat, end: nat)
    requires begin <= end
    ensures NobodyFrom(tape, search, c, begin, end + 1) <==>
            NobodyFrom(tape, search, c, begin, end) || (ErrorAt(tape, search, end) && tape[end].connection == c)
  {
    if ErrorAt(tape, search, end) && tape[end].connection == c {
      assert begin <= end < end + 1;
    }
  }

  lemma TrackedOk(tape: Tape, pos: nat, attempts: seq<Attempt>, out: seq<Out>, late: bool)
    requires AttemptsOk(tape, pos, pos, attempts, out, late) && pos < |tape|
    ensures AttemptsOk(tape, pos + 1, pos, Tracked(attempts, tape[pos]), out, late)
  {
    hide ErrorIn, ErrorAt;
    forall k | 0 <= k < |attempts| ensures AttemptOk(tape, pos + 1, pos, Tracked(attempts, tape[pos])[k], out[k], late) {
      assert AttemptOk(tape, pos, pos, attempts[k], out[k], late);
    }
  }

  /** An event that is no delivery error for an attempt leaves the strikes right. */
  lemma NoErrorHeard(tape: Tape, pos: nat, attempts: seq<Attempt>, out: seq<Out>, late: bool)
    requires AttemptsOk(tape, pos + 1, pos, attempts, out, late) && pos < |tape|
    requires forall k :: 0 <= k < |attempts| ==> !ErrorAt(tape, attempts[k].id, pos)
    ensures AttemptsOk(tape, pos + 1, pos + 1, attempts, out, late)
  {
    hide ErrorIn, ErrorAt, StateAt;
    forall k | 0 <= k < |attempts| ensures AttemptOk(tape, pos + 1, pos + 1, attempts[k], out[k], late) {
      assert AttemptOk(tape, pos + 1, pos, attempts[k], out[k], late);
      ErrorInMore(tape, out[k].id, out[k].since, pos);
    }
  }

  lemma ErrorHeard(tape: Tape, pos: nat, attempts: seq<Attempt>, out: seq<Out>, late: bool, n: nat, search: Id, next: Id)
    requires AttemptsOk(tape, pos + 1, pos, attempts, out, late) && pos < |tape| && IdsOk(attempts, search, next)
    requires n < |attempts| && ErrorAt(tape, attempts[n].id, pos)
    ensures AttemptsOk(tape, pos + 1, pos + 1, attempts[n := attempts[n].(struck := true)], out, late)
  {
    hide ErrorIn, StateAt;
    var now := attempts[n := attempts[n].(struck := true)];
    forall k | 0 <= k < |attempts| ensures AttemptOk(tape, pos + 1, pos + 1, now[k], out[k], late) {
      assert AttemptOk(tape, pos + 1, pos, attempts[k], out[k], late);
      ErrorInMore(tape, out[k].id, out[k].since, pos);
    }
  }

  // Reading the tape

  /** What a wait for one message may give. */
  datatype Received = Got(message: Message, connection: Connection) | WatchLost | RanOut

  /** An event a wait for one of `accept` reads past. */
  ghost predicate Passed(tape: Tape, accept: set<Id>, watch: Option<Connection>, i: nat)
    requires i < |tape|
  {
    match tape[i]
    case Expired => false
    case ConnectionLost(connection) => watch != Some(connection)
    case Arrived(message, _) => message.kind.RequestReceived? || message.references !in accept
    case Written(_) => true
    case GivenUpOn(_) => true
  }

  /** What was read from `begin` to `end`: nothing but what is read past, then the
      event returned. */
  ghost predicate ReadTo(tape: Tape, accept: set<Id>, watch: Option<Connection>, begin: nat, end: nat, received: Received) {
    begin <= end <= |tape| &&
    if begin < end && !Passed(tape, accept, watch, end - 1) then
      && (forall i :: begin <= i < end - 1 ==> Passed(tape, accept, watch, i))
      && match tape[end - 1]
         case Arrived(message, connection) => received == Got(message, connection)
         case ConnectionLost(_) => received.WatchLost?
         case _ => received.RanOut?
    else
      received.RanOut? && end == |tape| && forall i :: begin <= i < end ==> Passed(tape, accept, watch, i)
  }

  /** The wait goes on at `at`: nothing has ended it. */
  ghost predicate Going(tape: Tape, out: seq<Out>, wait: Wait, at: nat) {
    && wait.from <= at <= |tape|
    && (forall i :: wait.from <= i < at ==> !Ends(tape, out, wait, i))
    && (wait.stage.Search? ==> !NobodyAnywhere(tape, wait, at))
    && (wait.stage.Late? ==> !NobodyHasIt(tape, wait, at))
  }

  /** The ids a wait takes messages for: every attempt's, and the search's in its
      stage. */
  ghost predicate Accepts(wait: Wait, out: seq<Out>, accept: set<Id>) {
    && (forall k :: 0 <= k < |out| ==> out[k].id in accept)
    && wait.last in accept && wait.open <= accept && (wait.stage.Search? ==> wait.search in accept)
  }

  lemma PassedOn(tape: Tape, out: seq<Out>, wait: Wait, accept: set<Id>, at: nat)
    requires Going(tape, out, wait, at) && at < |tape| && Accepts(wait, out, accept) && Passed(tape, accept, wait.watch, at)
    ensures Going(tape, out, wait, at + 1)
    ensures forall id :: id in accept ==> !ErrorAt(tape, id, at)
  {
    hide NobodyFrom, ErrorIn;
    forall c | c in wait.all {
      NobodyFromMore(tape, wait.search, c, wait.from, at);
    }
    forall id | id in wait.open {
      ErrorInMore(tape, id, wait.from, at);
    }
  }

  lemma {:induction false} AllPassed(tape: Tape, out: seq<Out>, wait: Wait, accept: set<Id>, begin: nat, end: nat)
    requires Going(tape, out, wait, begin) && begin <= end <= |tape| && Accepts(wait, out, accept)
    requires forall i :: begin <= i < end ==> Passed(tape, accept, wait.watch, i)
    ensures Going(tape, out, wait, end)
    ensures forall i, id :: begin <= i < end && id in accept ==> !ErrorAt(tape, id, i)
    decreases end
  {
    hide Going, Accepts, Passed, ErrorAt;
    if begin < end {
      AllPassed(tape, out, wait, accept, begin, end - 1);
      PassedOn(tape, out, wait, accept, end - 1);
    }
  }

  /** An attempt is struck off that was before the wait, or drew a delivery error in it. */
  ghost predicate StrikesOk(tape: Tape, wait: Wait, attempts: seq<Attempt>, at: nat) {
    && (forall k :: 0 <= k < |attempts| ==>
          (attempts[k].struck <==> attempts[k].id !in wait.open || ErrorIn(tape, attempts[k].id, wait.from, at)))
    && wait.open <= Ids(attempts)
  }

  /** The connections still waited for are those searched that have not said nobody. */
  ghost predicate SearchedOk(tape: Tape, wait: Wait, searched: seq<Connection>, at: nat) {
    && Distinct(searched)
    && forall c :: c in searched <==> c in wait.all && !NobodyFrom(tape, wait.search, c, wait.from, at)
  }

  predicate Distinct(searched: seq<Connection>) {
    forall i, j :: 0 <= i < j < |searched| ==> searched[i] != searched[j]
  }

  /** What a wait keeps in its own terms. */
  ghost predicate WaitingOk(tape: Tape, wait: Wait, attempts: seq<Attempt>, searched: seq<Connection>, at: nat) {
    && StrikesOk(tape, wait, attempts, at)
    && (wait.stage.Search? ==> SearchedOk(tape, wait, searched, at))
  }

  lemma QuietErrors(tape: Tape, id: Id, from: nat, begin: nat, end: nat)
    requires from <= begin <= end && forall i :: begin <= i < end ==> !ErrorAt(tape, id, i)
    ensures ErrorIn(tape, id, from, end) <==> ErrorIn(tape, id, from, begin)
    ensures forall c :: NobodyFrom(tape, id, c, from, end) <==> NobodyFrom(tape, id, c, from, begin)
  {
    hide ErrorAt;
    forall c ensures NobodyFrom(tape, id, c, from, end) <==> NobodyFrom(tape, id, c, from, begin) {
    }
  }

  lemma QuietWait(tape: Tape, wait: Wait, attempts: seq<Attempt>, searched: seq<Connection>, begin: nat, end: nat)
    requires WaitingOk(tape, wait, attempts, searched, begin) && wait.from <= begin <= end
    requires forall k, i :: 0 <= k < |attempts| && begin <= i < end ==> !ErrorAt(tape, attempts[k].id, i)
    requires wait.stage.Search? ==> forall i :: begin <= i < end ==> !ErrorAt(tape, wait.search, i)
    ensures WaitingOk(tape, wait, attempts, searched, end)
  {
    hide ErrorIn, ErrorAt, NobodyFrom, Distinct, Ids;
    forall k | 0 <= k < |attempts|
      ensures ErrorIn(tape, attempts[k].id, wait.from, end) <==> ErrorIn(tape, attempts[k].id, wait.from, begin)
    {
      QuietErrors(tape, attempts[k].id, wait.from, begin, end);
    }
    if wait.stage.Search? {
      QuietErrors(tape, wait.search, wait.from, begin, end);
    }
  }

  lemma StruckOne(tape: Tape, wait: Wait, attempts: seq<Attempt>, at: nat, n: nat, search: Id, next: Id)
    requires StrikesOk(tape, wait, attempts, at) && wait.from <= at && IdsOk(attempts, search, next)
    requires n < |attempts| && ErrorAt(tape, attempts[n].id, at)
    ensures StrikesOk(tape, wait, attempts[n := attempts[n].(struck := true)], at + 1)
  {
    hide ErrorIn;
    var now := attempts[n := attempts[n].(struck := true)];
    assert Ids(now) == Ids(attempts) by {
      assert forall k :: 0 <= k < |attempts| ==> now[k].id == attempts[k].id;
    }
    forall k | 0 <= k < |attempts| {
      ErrorInMore(tape, attempts[k].id, wait.from, at);
    }
  }

  lemma AnyOpen(tape: Tape, wait: Wait, attempts: seq<Attempt>, at: nat)
    requires StrikesOk(tape, wait, attempts, at)
    ensures NobodyHasIt(tape, wait, at) <==> forall k :: 0 <= k < |attempts| ==> attempts[k].struck
  {
    hide ErrorIn;
    if forall k :: 0 <= k < |attempts| ==> attempts[k].struck {
      forall id | id in wait.open ensures ErrorIn(tape, id, wait.from, at) {
        assert id in Ids(attempts);
        var k :| 0 <= k < |attempts| && attempts[k].id == id;
        assert attempts[k].struck;
      }
    }
  }

  lemma SomeSearched(tape: Tape, wait: Wait, searched: seq<Connection>, at: nat)
    requires SearchedOk(tape, wait, searched, at)
    ensures NobodyAnywhere(tape, wait, at) <==> searched == []
  {
    hide NobodyFrom, Distinct;
    if searched != [] {
      assert searched[0] in searched;
    }
  }

  /** One entry for `connection` gone, the first, if there is one. */
  ghost predicate OneLess(was: seq<Connection>, now: seq<Connection>, connection: Connection) {
    if connection in was then
      exists i :: 0 <= i < |was| && was[i] == connection && connection !in was[..i] && now == was[..i] + was[i + 1..]
    else
      now == was
  }

  lemma SaidNobody(tape: Tape, wait: Wait, was: seq<Connection>, now: seq<Connection>, at: nat)
    requires SearchedOk(tape, wait, was, at) && ErrorAt(tape, wait.search, at) && wait.from <= at
    requires OneLess(was, now, tape[at].connection)
    ensures SearchedOk(tape, wait, now, at + 1)
  {
    hide NobodyFrom, OneLess;
    var c := tape[at].connection;
    LessOne(was, now, c);
    forall other ensures other in now <==> other in wait.all && !NobodyFrom(tape, wait.search, other, wait.from, at + 1) {
      NobodyFromMore(tape, wait.search, other, wait.from, at);
    }
  }

  lemma LessOne(was: seq<Connection>, now: seq<Connection>, connection: Connection)
    requires OneLess(was, now, connection) && Distinct(was)
    ensures Distinct(now) && forall c :: c in now <==> c in was && c != connection
  {
    if connection in was {
      var i :| 0 <= i < |was| && was[i] == connection && connection !in was[..i] && now == was[..i] + was[i + 1..];
      CutAt(was, i);
    }
  }

  lemma CutAt(was: seq<Connection>, i: nat)
    requires i < |was| && Distinct(was)
    ensures var now := was[..i] + was[i + 1..];
            Distinct(now) && forall c :: c in now <==> c in was && c != was[i]
  {
    var now := was[..i] + was[i + 1..];
    assert forall j :: 0 <= j < i ==> now[j] == was[j];
    assert forall j :: i <= j < |now| ==> now[j] == was[j + 1];
    forall c ensures c in now <==> c in was && c != was[i] {
      if c in was && c != was[i] {
        var j :| 0 <= j < |was| && was[j] == c;
        assert now[if j < i then j else j - 1] == c;
      }
      if c in now {
        var j :| 0 <= j < |now| && now[j] == c;
        assert was[if j < i then j else j + 1] == c;
      }
    }
  }

  lemma EndedHere(tape: Tape, out: seq<Out>, wait: Wait, pinned: bool, outcome: Outcome, to: nat)
    requires 0 < to <= |tape| && Going(tape, out, wait, to - 1) && Ends(tape, out, wait, to - 1)
    requires Says(tape, out, wait, to - 1, pinned, outcome)
    ensures Ended(tape, out, wait, pinned, outcome, to)
  {
  }

  lemma NoReplyIn(tape: Tape, out: seq<Out>, wait: Wait, at: nat)
    requires Going(tape, out, wait, at) && NoReply(tape, out, wait.from)
    ensures NoReply(tape, out, at)
  {
    hide ReplyAt;
    forall i | 0 <= i < at ensures !ReplyAt(tape, out, i) {
      assert i >= wait.from ==> !Ends(tape, out, wait, i);
    }
  }

  // The course of a query

  /** A wait that is over. */
  datatype Waited = Waited(wait: Wait, outcome: Outcome, to: nat)

  /** The attempts somebody may have at a moment: no delivery error heard, and out. */
  ghost function OpenAt(tape: Tape, out: seq<Out>, at: nat): set<Id> {
    set k | 0 <= k < |out| && out[k].since <= at <= |tape| && !ErrorIn(tape, out[k].id, out[k].since, at) &&
            !NotOut(StateAt(tape, out[k], at)) :: out[k].id
  }

  /** What each stage waits on: the connection that wrote its attempt, or the pinned
      lane's; the last wait, for the attempts somebody may have. */
  ghost predicate WaitsOn(tape: Tape, out: seq<Out>, lane: Option<Connection>, living: set<Connection>, wait: Wait) {
    match wait.stage
    case Request => |out| > 0 && wait.watch == out[0].via && wait.last == out[0].id
    case Search => wait.watch == lane && wait.all != {} && wait.all == if lane.Some? then {lane.value} else living
    case Direct => |out| == 2 && wait.watch == out[1].via && wait.last == out[1].id && wait.from == out[1].since
    case Late => wait.watch == lane && wait.open == OpenAt(tape, out, wait.from)
  }

  ghost predicate WaitedOk(tape: Tape, out: seq<Out>, lane: Option<Connection>, living: set<Connection>, waited: Waited) {
    Ended(tape, out, waited.wait, lane.Some?, waited.outcome, waited.to) && WaitsOn(tape, out, lane, living, waited.wait)
  }

  /** Which stage follows a wait. A query by type searches when the request's time
      is over as well; an addressed one does not. */
  ghost predicate Follows(waited: Waited, stage: Stage, addressed: bool) {
    match stage
    case Request => false
    case Search =>
      waited.wait.stage.Request? &&
      (waited.outcome.Refused? || waited.outcome.WatchGone? || (waited.outcome.TimedOut? && !addressed))
    case Direct => waited.wait.stage.Search? && waited.outcome.Found?
    case Late =>
      || (waited.wait.stage.Search? && waited.outcome.Nobody?)
      || (waited.wait.stage.Direct? && (waited.outcome.Refused? || waited.outcome.WatchGone?))
  }

  /** The waits cover what was read, each beginning where the one before ended, in a
      stage that one calls for. */
  ghost predicate Course(tape: Tape, out: seq<Out>, lane: Option<Connection>, living: set<Connection>, addressed: bool, waits: seq<Waited>, pos: nat) {
    && (forall k :: 0 <= k < |waits| ==> WaitedOk(tape, out, lane, living, waits[k]))
    && (forall k :: 0 < k < |waits| ==>
          waits[k].wait.from == waits[k - 1].to && Follows(waits[k - 1], waits[k].wait.stage, addressed))
    && if waits == [] then pos == 0
       else
         && waits[0].wait.from == 0 && waits[|waits| - 1].to == pos
         && (waits[0].wait.stage.Request? || (waits[0].wait.stage.Search? && !addressed))
  }

  /** The second attempt: made exactly once an instance was found, to that instance
      or the addressee, by the connection it answered on if that lives. */
  ghost predicate AgainOk(attempts: seq<Attempt>, out: seq<Out>, addressee: Instance, waits: seq<Waited>) {
    && |attempts| == |out|
    && (|attempts| == 2 <==> exists k :: 0 <= k < |waits| && waits[k].outcome.Found?)
    && (forall k :: 0 <= k < |waits| && waits[k].outcome.Found? && |attempts| == 2 ==>
          && out[1].since == waits[k].to && attempts[1].preferred == Some(waits[k].outcome.connection)
          && attempts[1].to == if addressee != 0 then addressee else waits[k].outcome.message.sender)
    && (forall k :: 0 <= k < |attempts| && addressee != 0 ==> attempts[k].to == addressee)
  }

  lemma EndedEarlier(tape: Tape, out: seq<Out>, more: Out, wait: Wait, pinned: bool, outcome: Outcome, to: nat)
    requires Ended(tape, out, wait, pinned, outcome, to) && to <= more.since
    ensures Ended(tape, out + [more], wait, pinned, outcome, to)
  {
    hide ReplyAt, ErrorAt, PingAt, NobodyAnywhere, NobodyHasIt, LosesWatch;
    forall i | wait.from <= i < to ensures Ends(tape, out + [more], wait, i) <==> Ends(tape, out, wait, i) {
      ReplyEarlier(tape, out, more, i);
    }
    if wait.from < to {
      ReplyEarlier(tape, out, more, to - 1);
    }
  }

  lemma ReplyEarlier(tape: Tape, out: seq<Out>, more: Out, i: nat)
    requires i < more.since
    ensures ReplyAt(tape, out + [more], i) <==> ReplyAt(tape, out, i)
  {
    var now := out + [more];
    if ReplyAt(tape, out, i) {
      var k :| 0 <= k < |out| && ReplyTo(tape, out[k], i);
      assert ReplyTo(tape, now[k], i);
    }
  }

  /** An attempt that goes out leaves the waits before it as they were. */
  lemma CourseOutMore(tape: Tape, out: seq<Out>, more: Out, lane: Option<Connection>, living: set<Connection>, addressed: bool, waits: seq<Waited>, pos: nat)
    requires Course(tape, out, lane, living, addressed, waits, pos) && more.since == pos && |out| <= 1
    requires forall k :: 0 <= k < |waits| ==> !waits[k].wait.stage.Direct? && !waits[k].wait.stage.Late?
    ensures Course(tape, out + [more], lane, living, addressed, waits, pos)
  {
    hide Ended, OpenAt, Follows;
    forall k | 0 <= k < |waits| ensures WaitedOk(tape, out + [more], lane, living, waits[k]) {
      assert WaitedOk(tape, out, lane, living, waits[k]);
      WaitsEarlier(tape, out, lane, living, addressed, waits, pos, k);
      EndedEarlier(tape, out, more, waits[k].wait, lane.Some?, waits[k].outcome, waits[k].to);
    }
  }

  lemma {:induction false} WaitsEarlier(tape: Tape, out: seq<Out>, lane: Option<Connection>, living: set<Connection>, addressed: bool,
                                        waits: seq<Waited>, pos: nat, k: nat)
    requires Course(tape, out, lane, living, addressed, waits, pos) && k < |waits|
    ensures waits[k].to <= pos
    decreases |waits| - k
  {
    hide Follows, WaitsOn, Says, Ends;
    if k + 1 < |waits| {
      assert waits[k + 1].wait.from == waits[k].to;
      assert WaitedOk(tape, out, lane, living, waits[k + 1]);
      WaitsEarlier(tape, out, lane, living, addressed, waits, pos, k + 1);
    }
  }

  lemma CourseMore(tape: Tape, out: seq<Out>, lane: Option<Connection>, living: set<Connection>, addressed: bool, waits: seq<Waited>, pos: nat,
                   more: Waited)
    requires Course(tape, out, lane, living, addressed, waits, pos) && WaitedOk(tape, out, lane, living, more) && more.wait.from == pos
    requires if waits == [] then more.wait.stage.Request? || (more.wait.stage.Search? && !addressed)
             else Follows(waits[|waits| - 1], more.wait.stage, addressed)
    ensures Course(tape, out, lane, living, addressed, waits + [more], more.to)
  {
    hide WaitedOk, Follows;
    var now := waits + [more];
    assert forall k :: 0 <= k < |waits| ==> now[k] == waits[k];
    assert now[|waits|] == more;
  }

  lemma NoReplyEarlier(tape: Tape, out: seq<Out>, more: Out, end: nat)
    requires NoReply(tape, out, end) && end <= more.since
    ensures NoReply(tape, out + [more], end)
  {
    hide ReplyAt;
    forall i | 0 <= i < end ensures !ReplyAt(tape, out + [more], i) {
      ReplyEarlier(tape, out, more, i);
    }
  }

  class Query {
    const tape: Tape
    const sendings: nat -> Sending      // how each send goes
    const lane: Option<Connection>      // the connection of a pinned lane
    const living: set<Connection>       // the connections the search finds living
    const addressee: Instance           // 0 for a query by type

    var pos: nat
    var sends: nat
    var attempts: seq<Attempt>
    var search: Id
    var searched: seq<Connection>
    var nextId: Id

    ghost var out: seq<Out>
    ghost var all: set<Connection>
    ghost var late: bool
    ghost var waits: seq<Waited>

    ghost predicate Valid()
      reads this
    {
      && AttemptsOk(tape, pos, pos, attempts, out, late) && IdsOk(attempts, search, nextId)
    }

    constructor (tape: Tape, sendings: nat -> Sending, lane: Option<Connection>, living: set<Connection>, addressee: Instance)
      ensures Valid() && Fresh()
      ensures this.tape == tape && this.sendings == sendings && this.lane == lane && this.living == living && this.addressee == addressee
    {
      this.tape, this.sendings, this.lane, this.living, this.addressee := tape, sendings, lane, living, addressee;
      pos, sends, attempts, search, searched, nextId := 0, 0, [], 0, [], 1;
      out, all, late, waits := [], {}, false, [];
    }

    ghost predicate Fresh()
      reads this
    {
      pos == 0 && sends == 0 && attempts == [] && out == [] && search == 0 && !late && waits == []
    }

    /** How the send numbered `k` goes: through a pinned lane, by its connection. The
        second send of a query is its search, which goes by every living connection. */
    function SendingOf(k: nat): Sending {
      if lane.Some? then (if sendings(k).Wrote? then Wrote(lane.value) else sendings(k))
      else if k == 1 then (if living == {} then NoConnection else Wrote(0))
      else sendings(k)
    }

    /** The attempt that went out under an id, or none: the number of them. */
    method AttemptOf(id: Id) returns (found: nat)
      ensures found <= |attempts|
      ensures found < |attempts| ==> attempts[found].id == id
      ensures found == |attempts| <==> id !in Ids(attempts)
    {
      found := 0;
      while found < |attempts| && attempts[found].id != id
        invariant found <= |attempts| && forall i :: 0 <= i < found ==> attempts[i].id != id
      {
        found := found + 1;
      }
      if found < |attempts| {
        assert attempts[found].id in Ids(attempts);
      }
    }

    method AnyLeft() returns (any: bool)
      ensures any <==> exists i :: 0 <= i < |attempts| && !attempts[i].struck
    {
      for i := 0 to |attempts|
        invariant forall j :: 0 <= j < i ==> attempts[j].struck
      {
        if !attempts[i].struck {
          return true;
        }
      }
      return false;
    }

    /** A search's "nobody" from a connection it waited for: its entry gone. */
    method AnsweredFrom(connection: Connection) returns (waited: bool)
      modifies `searched
      ensures waited == (connection in old(searched)) && OneLess(old(searched), searched, connection)
    {
      for i := 0 to |searched|
        invariant connection !in searched[..i]
        invariant searched == old(searched)
      {
        if searched[i] == connection {
          searched := searched[..i] + searched[i + 1..];
          return true;
        }
      }
      return false;
    }

    /** Strikes off exactly the attempts that are not out. */
    method StrikeGivenUp()
      requires Valid()
      modifies `attempts, `late
      ensures Valid() && late && SameAttempts(old(attempts), attempts)
      ensures forall k :: 0 <= k < |attempts| ==>
        && attempts[k].state == old(attempts)[k].state
        && (attempts[k].struck <==> old(attempts)[k].struck || attempts[k].state.Unplaced? || attempts[k].state.Lost?)
    {
      hide ErrorIn, StateAt, IdsOk;
      ghost var was := attempts;
      late := true;
      for i := 0 to |attempts|
        invariant late && |attempts| == |was| && AttemptsOk(tape, pos, pos, attempts, out, true)
        invariant forall k :: 0 <= k < |was| ==>
          attempts[k] == was[k].(struck := was[k].struck || (k < i && NotOut(was[k].state)))
      {
        if NotOut(attempts[i].state) {
          assert AttemptOk(tape, pos, pos, attempts[i], out[i], true);
          attempts := attempts[i := attempts[i].(struck := true)];
        }
      }
      SameIds(was, attempts, search, nextId);
    }

    /** The next message for one of the ids, what is for none of them dropped, unless
        the time is over or the connection watched is gone. */
    method Receive(accept: set<Id>, watch: Option<Connection>) returns (received: Received)
      requires Valid() && Ids(attempts) <= accept
      modifies `pos, `attempts
      ensures ReadTo(tape, accept, watch, old(pos), pos, received)
      ensures AttemptsOk(tape, pos, if received.Got? then pos - 1 else pos, attempts, out, late)
      ensures SameAttempts(old(attempts), attempts) && IdsOk(attempts, search, nextId)
      ensures forall k :: 0 <= k < |attempts| ==> attempts[k].struck == old(attempts)[k].struck
    {
      hide AttemptsOk, IdsOk, Ids;
      ghost var was, begin := attempts, pos;
      Within(tape, pos, pos, attempts, out, late);
      while pos < |tape|
        invariant begin <= pos <= |tape| && AttemptsOk(tape, pos, pos, attempts, out, late)
        invariant SameAttempts(was, attempts) && forall k :: 0 <= k < |was| ==> attempts[k].struck == was[k].struck
        invariant forall i :: begin <= i < pos ==> Passed(tape, accept, watch, i)
      {
        var event := tape[pos];
        TrackedOk(tape, pos, attempts, out, late);
        attempts := Tracked(attempts, event);
        pos := pos + 1;
        SameIds(was, attempts, search, nextId);
        if event.Arrived? && !event.message.kind.RequestReceived? && event.message.references in accept {
          return Got(event.message, event.connection);
        }
        Unaddressed(tape, pos - 1, attempts, accept);
        NoErrorHeard(tape, pos - 1, attempts, out, late);
        if event.Expired? {
          return RanOut;
        }
        if event.ConnectionLost? && watch == Some(event.connection) {
          return WatchLost;
        }
      }
      SameIds(was, attempts, search, nextId);
      return RanOut;
    }

    /** A delivery error for an attempt: it is struck off, and the stage ends that it is
        the last attempt of, or that it leaves nobody in. */
    method HeedError(n: nat, stage: Stage, ghost wait: Wait) returns (ended: Option<Outcome>)
      requires 0 < pos && AttemptsOk(tape, pos, pos - 1, attempts, out, late) && IdsOk(attempts, search, nextId)
      requires n < |attempts| && wait.stage == stage && wait.search == search && wait.last == attempts[|attempts| - 1].id
      requires Going(tape, out, wait, pos - 1) && WaitingOk(tape, wait, attempts, searched, pos - 1)
      requires ErrorAt(tape, attempts[n].id, pos - 1) && !ReplyAt(tape, out, pos - 1)
      modifies `attempts
      ensures Valid() && SameAttempts(old(attempts), attempts) && StrikesOk(tape, wait, attempts, pos)
      ensures ended.None? ==> Going(tape, out, wait, pos) && WaitingOk(tape, wait, attempts, searched, pos)
      ensures ended.Some? ==>
        && Ends(tape, out, wait, pos - 1) && Says(tape, out, wait, pos - 1, lane.Some?, ended.value)
        && !ended.value.Answered?
    {
      hide AttemptsOk, Ids, ReplyAt, ErrorIn, NobodyFrom, SearchedOk, StrikesOk, NobodyAnywhere, NobodyHasIt, StateAt;
      ghost var at := pos - 1;
      ErrorHeard(tape, at, attempts, out, late, n, search, nextId);
      StruckOne(tape, wait, attempts, at, n, search, nextId);
      if stage.Search? {
        NotTheSearch(tape, wait, searched, at);
      }
      attempts := attempts[n := attempts[n].(struck := true)];
      if (stage.Request? || stage.Direct?) && n == |attempts| - 1 {
        return Some(Refused);
      }
      if stage.Late? {
        AnyOpen(tape, wait, attempts, pos);
        var any := AnyLeft();
        if !any {
          return Some(Nobody);
        }
      }
      return None;
    }

    /** An answer to the search: a PING finds an instance, a delivery error counts a
        connection off, and anything else is nothing. */
    method HeedSearch(message: Message, connection: Connection, ghost wait: Wait) returns (ended: Option<Outcome>)
      requires 0 < pos <= |tape| && wait.stage.Search? && message.references == wait.search
      requires Going(tape, out, wait, pos - 1) && SearchedOk(tape, wait, searched, pos - 1)
      requires tape[pos - 1] == Arrived(message, connection) && !ReplyAt(tape, out, pos - 1)
      modifies `searched
      ensures ended.None? ==> Going(tape, out, wait, pos) && SearchedOk(tape, wait, searched, pos)
      ensures ended.Some? ==>
        && Ends(tape, out, wait, pos - 1) && Says(tape, out, wait, pos - 1, lane.Some?, ended.value)
        && !ended.value.Answered?
    {
      hide ReplyAt, ErrorIn, NobodyFrom, SearchedOk, NobodyAnywhere;
      ghost var at := pos - 1;
      if message.kind.Ping? {
        return Some(Found(message, connection));
      }
      if message.kind.DeliveryError? {
        ghost var was := searched;
        SomeSearched(tape, wait, was, at);
        var waited := AnsweredFrom(connection);
        SaidNobody(tape, wait, was, searched, at);
        SomeSearched(tape, wait, searched, pos);
        if waited && searched == [] {
          return Some(Nobody);
        }
        return None;
      }
      NotTheSearch(tape, wait, searched, at);
      return None;
    }

    /** A message got, read by the one table: a reply to an attempt ends every stage. */
    method Heed(message: Message, connection: Connection, stage: Stage, ghost wait: Wait) returns (ended: Option<Outcome>)
      requires 0 < pos && AttemptsOk(tape, pos, pos - 1, attempts, out, late) && IdsOk(attempts, search, nextId)
      requires attempts != [] && wait.stage == stage && wait.search == search && wait.last == attempts[|attempts| - 1].id
      requires Going(tape, out, wait, pos - 1) && WaitingOk(tape, wait, attempts, searched, pos - 1)
      requires pos <= |tape| && tape[pos - 1] == Arrived(message, connection) && !message.kind.RequestReceived?
      requires message.references in Ids(attempts) || (stage.Search? && message.references == search)
      modifies `attempts, `searched
      ensures Valid() && SameAttempts(old(attempts), attempts) && StrikesOk(tape, wait, attempts, pos)
      ensures ended.None? ==> Going(tape, out, wait, pos) && WaitingOk(tape, wait, attempts, searched, pos)
      ensures ended.Some? ==>
        && Ends(tape, out, wait, pos - 1) && Says(tape, out, wait, pos - 1, lane.Some?, ended.value)
        && (ended.value.Answered? <==> ReplyAt(tape, out, pos - 1))
    {
      hide AttemptsOk, Ids, ReplyAt, ErrorIn, NobodyFrom, SearchedOk, StrikesOk, NobodyAnywhere, NobodyHasIt, StateAt, Going;
      ghost var at := pos - 1;
      var n := AttemptOf(message.references);
      Replied(tape, pos, attempts, out, late, at);
      if n < |attempts| && message.kind.DeliveryError? {
        ended := HeedError(n, stage, wait);
        return;
      }
      Since(tape, out, wait, at);
      NoErrorHeard(tape, at, attempts, out, late);
      StrikesQuiet(tape, wait, attempts, at);
      if n < |attempts| {
        return Some(Answered(message));
      }
      ended := HeedSearch(message, connection, wait);
    }

    /** The wait of a stage, ended by the first event that ends it. */
    method Await(stage: Stage, watch: Option<Connection>) returns (outcome: Outcome, ghost wait: Wait)
      requires Valid() && attempts != [] && NoReply(tape, out, pos)
      requires stage.Search? ==> Distinct(searched) && searched != [] && all == set c | c in searched
      requires stage.Late? ==> exists k :: 0 <= k < |attempts| && !attempts[k].struck
      modifies `pos, `attempts, `searched
      ensures Valid() && SameAttempts(old(attempts), attempts)
      ensures wait == Wait(stage, watch, old(pos), search, all, old(attempts)[|old(attempts)| - 1].id, Unstruck(old(attempts)))
      ensures Ended(tape, out, wait, lane.Some?, outcome, pos)
      ensures StrikesOk(tape, wait, attempts, pos)
      ensures AnsweredOr(tape, out, pos, outcome)
    {
      hide AttemptsOk, IdsOk, Ids, StrikesOk, SearchedOk, NoReply, ReplyAt, Ends, Says, NobodyAnywhere, NobodyHasIt;
      ghost var was := attempts;
      wait := Wait(stage, watch, pos, search, all, attempts[|attempts| - 1].id, Unstruck(attempts));
      Within(tape, pos, pos, attempts, out, late);
      Begins(tape, out, wait, attempts, searched, nextId);
      var accept := Ids(attempts);
      if stage.Search? {
        accept := accept + {search};
      }
      TakesAll(tape, pos, attempts, out, late, wait, accept);
      while true
        invariant Valid() && SameAttempts(was, attempts) && |attempts| == |was|
        invariant Going(tape, out, wait, pos) && WaitingOk(tape, wait, attempts, searched, pos)
        decreases |tape| - pos
      {
        ghost var begin, before := pos, attempts;
        SameIds(was, attempts, search, nextId);
        var received := Receive(accept, watch);
        SameIds(was, attempts, search, nextId);
        ghost var at := if begin < pos && !Passed(tape, accept, watch, pos - 1) then pos - 1 else pos;
        AllPassed(tape, out, wait, accept, begin, at);
        InAccept(attempts, accept);
        SameStrikes(tape, wait, before, attempts, begin);
        QuietWait(tape, wait, attempts, searched, begin, at);
        NoReplyIn(tape, out, wait, at);
        if received.RanOut? {
          TimeOver(tape, out, wait, lane.Some?, attempts, at, pos);
          return TimedOut, wait;
        }
        if received.WatchLost? {
          outcome := if lane.Some? then Unpinned else WatchGone;
          WatchOver(tape, out, wait, lane.Some?, attempts, outcome, pos);
          return;
        }
        var ended := Heed(received.message, received.connection, stage, wait);
        if ended.Some? {
          outcome := ended.value;
          EndedHere(tape, out, wait, lane.Some?, outcome, pos);
          HeardLast(tape, out, wait, lane.Some?, pos, outcome);
          return;
        }
      }
    }

    // The stages

    /** What holds between a query's waits: they follow one another, and there has
        been no reply. */
    ghost predicate Underway()
      reads this
    {
      Valid() && Course(tape, out, lane, living, addressee != 0, waits, pos) && NoReply(tape, out, pos)
    }

    ghost predicate Calls(stage: Stage)
      reads this
    {
      if waits == [] then stage.Request? || (stage.Search? && addressee == 0)
      else Follows(waits[|waits| - 1], stage, addressee != 0)
    }

    /** Sends an attempt with a fresh id and notes it, its tracker and the connection it
        should go by. */
    method SendAttempt(to: Instance, preferred: Option<Connection>) returns (sending: Sending)
      requires Underway() && |attempts| < 2 && !late && sends != 1
      requires forall k :: 0 <= k < |waits| ==> !waits[k].wait.stage.Direct? && !waits[k].wait.stage.Late?
      modifies `attempts, `nextId, `sends, `out
      ensures Underway() && sends == old(sends) + 1 && sending == SendingOf(old(sends))
      ensures |attempts| == |out| == |old(attempts)| + 1 && attempts[..|attempts| - 1] == old(attempts)
      ensures out[..|out| - 1] == old(out)
      ensures var last := attempts[|attempts| - 1];
              && last == Attempt(last.id, to, preferred, Placed(sending), false)
              && out[|out| - 1] == Out(last.id, pos, Placed(sending), if sending.Wrote? then Some(sending.connection) else None)
              && last.state == if sending.Wrote? then Sent else if sending == SendTimedOut(true) then Queued else Unplaced
    {
      hide Course, NoReply;
      var id: Id :| id >= nextId;
      nextId := id + 1;
      sending := SendingOf(sends);
      sends := sends + 1;
      var attempt := Attempt(id, to, preferred, Placed(sending), false);
      ghost var now := Out(id, pos, Placed(sending), if sending.Wrote? then Some(sending.connection) else None);
      OneMoreOut(tape, pos, attempts, out, attempt, now);
      CourseOutMore(tape, out, now, lane, living, addressee != 0, waits, pos);
      NoReplyEarlier(tape, out, now, pos);
      attempts := attempts + [attempt];
      out := out + [now];
    }

    /** Sends the search everywhere it can go. */
    method SendSearch() returns (sending: Sending)
      requires Underway() && sends == 1
      modifies `search, `searched, `all, `nextId, `sends
      ensures Underway() && search != 0 && sends == 2 && sending == SendingOf(1)
      ensures sending.Wrote? ==> Distinct(searched) && searched != [] && all == set c | c in searched
      ensures sending.Wrote? ==> all == if lane.Some? then {lane.value} else living
    {
      hide Course, NoReply, AttemptsOk;
      var id: Id :| id >= nextId && id > 0;
      nextId := id + 1;
      search := id;
      searched := [];
      sending := SendingOf(sends);
      sends := sends + 1;
      if sending.Wrote? {
        searched := Listed(if lane.Some? then {lane.value} else living);
      }
      all := set c | c in searched;
    }

    /** A wait of the stage called for, noted. */
    method WaitIn(stage: Stage, watch: Option<Connection>) returns (outcome: Outcome)
      requires Underway() && attempts != [] && Calls(stage)
      requires stage.Search? ==> Distinct(searched) && searched != [] && all == set c | c in searched
      requires stage.Late? ==> exists k :: 0 <= k < |attempts| && !attempts[k].struck
      requires WaitsOn(tape, out, lane, living, WaitFor(stage, watch))
      modifies `pos, `attempts, `searched, `waits
      ensures Valid() && SameAttempts(old(attempts), attempts)
      ensures waits == old(waits) + [Waited(old(WaitFor(stage, watch)), outcome, pos)]
      ensures Course(tape, out, lane, living, addressee != 0, waits, pos) && AnsweredOr(tape, out, pos, outcome)
      ensures StrikesOk(tape, old(WaitFor(stage, watch)), attempts, pos)
    {
      hide AttemptsOk, IdsOk, Course, NoReply, Ended, WaitsOn, Follows, StrikesOk, AnsweredOr, SameAttempts;
      ghost var wait;
      outcome, wait := Await(stage, watch);
      CourseMore(tape, out, lane, living, addressee != 0, waits, wait.from, Waited(wait, outcome, pos));
      waits := waits + [Waited(wait, outcome, pos)];
    }

    ghost function WaitFor(stage: Stage, watch: Option<Connection>): Wait
      requires attempts != []
      reads this
    {
      Wait(stage, watch, pos, search, all, attempts[|attempts| - 1].id, Unstruck(attempts))
    }

    /** How a query ends. By the first reply to an attempt there was, whatever the
        stage, and else there was none; as timed out, when a send or a stage's wait
        was, with nothing to follow; as not connected, when a send found no connection
        or the pinned one went; as failed, only with no attempt left that somebody
        may have, once nobody was found or the second attempt came to nothing. */
    ghost predicate ResultOk(result: Result)
      reads this
    {
      0 < sends &&
      match result
      case Answer(message) =>
        && waits != [] && waits[|waits| - 1].outcome == Answered(message)
        && AnsweredOr(tape, out, pos, Answered(message))
      case OperationTimedOut =>
        && NoReply(tape, out, pos)
        && ((SendingOf(sends - 1).SendTimedOut? && (addressee != 0 || sends > 1)) ||
            (waits != [] && waits[|waits| - 1].outcome.TimedOut? && !Calls(Search)))
      case NotConnected =>
        && NoReply(tape, out, pos)
        && (!SendingOf(sends - 1).Wrote? || (waits != [] && waits[|waits| - 1].outcome.Unpinned?))
      case OperationFailed =>
        && NoReply(tape, out, pos) && OpenAt(tape, out, pos) == {}
        && waits != [] && (Calls(Late) || (waits[|waits| - 1].wait.stage.Late? && waits[|waits| - 1].outcome.Nobody?))
    }

    ghost predicate Finished(result: Result)
      reads this
    {
      && Valid() && Course(tape, out, lane, living, addressee != 0, waits, pos)
      && AgainOk(attempts, out, addressee, waits) && ResultOk(result)
    }

    /** A query by type that timed out had searched; an addressed one had too, unless its
        request's time was over. */
    lemma TimedOutSearched()
      requires Finished(OperationTimedOut)
      ensures addressee == 0 ==> sends > 1 || (waits != [] && !waits[|waits| - 1].wait.stage.Request?)
      ensures addressee != 0 && sends == 1 && SendingOf(0).Wrote? ==> waits != [] && waits[|waits| - 1].outcome.TimedOut?
    {
      hide AttemptsOk, IdsOk, Course, NoReply, AgainOk;
    }

    /** A query fails only if nobody has any of its attempts: each came back as a delivery
        error, was never placed, or was given up on; and there was no reply. */
    lemma FailedBecause(k: nat)
      requires Finished(OperationFailed) && k < |out|
      ensures out[k].since <= pos <= |tape|
      ensures ErrorIn(tape, out[k].id, out[k].since, pos) || StateAt(tape, out[k], pos) == Unplaced || StateAt(tape, out[k], pos) == Lost
      ensures forall i, l :: 0 <= i < pos && 0 <= l < |out| ==> !ReplyTo(tape, out[l], i)
    {
      hide IdsOk, Course, AgainOk, ErrorIn, StateAt, ReplyTo;
      assert AttemptOk(tape, pos, pos, attempts[k], out[k], late);
      assert out[k].id !in OpenAt(tape, out, pos);
      forall i, l | 0 <= i < pos && 0 <= l < |out| ensures !ReplyTo(tape, out[l], i) {
        assert !ReplyAt(tape, out, i);
      }
    }

    /** The last wait, for a reply to an attempt somebody may have. */
    method LateWait() returns (result: Result)
      requires Underway() && !late && attempts != [] && Calls(Late) && waits != []
      requires 0 < sends && SendingOf(sends - 1).Wrote? && AgainOk(attempts, out, addressee, waits)
      modifies `pos, `attempts, `searched, `waits, `late
      ensures Finished(result)
    {
      hide AttemptsOk, IdsOk, Course, NoReply, StrikesOk, OpenAt, SameAttempts, AgainOk, Ended, WaitedOk;
      ghost var was, before := attempts, waits;
      StrikeGivenUp();
      SameSecond(was, attempts, out, addressee, waits);
      OpenIs(tape, pos, was, attempts, out);
      var any := AnyLeft();
      if !any {
        NoneUnstruck(attempts);
        return OperationFailed;
      }
      ghost var again := attempts;
      var outcome := WaitIn(Late, lane);
      ghost var last := waits[|waits| - 1];
      LastWaited(tape, out, lane, living, addressee != 0, waits, pos);
      SecondWaited(again, attempts, out, addressee, before, last);
      match outcome
      case Answered(message) => return Answer(message);
      case TimedOut => return OperationTimedOut;
      case Unpinned => return NotConnected;
      case Nobody =>
        NobodyLeft(tape, pos, attempts, out, lane, living, late, last);
        return OperationFailed;
    }

    /** The second attempt, by the connection the PING came on, and its wait. */
    method SendAgain(ping: Message, connection: Connection) returns (result: Result)
      requires Underway() && !late && |attempts| == 1 && sends == 2 && waits != []
      requires waits[|waits| - 1].wait.stage.Search? && waits[|waits| - 1].outcome == Found(ping, connection)
      requires forall k :: 0 <= k < |waits| - 1 ==> waits[k].wait.stage.Request? && !waits[k].outcome.Found?
      requires attempts[0].to == addressee
      modifies `pos, `attempts, `searched, `waits, `late, `nextId, `sends, `out
      ensures Finished(result)
    {
      hide AttemptsOk, IdsOk, Course, NoReply, StrikesOk, OpenAt, SameAttempts, AgainOk, Ended, WaitedOk;
      ghost var before := waits;
      LastWaited(tape, out, lane, living, addressee != 0, waits, pos);
      OutCount(tape, pos, attempts, out, late);
      var sent := SendAttempt(if addressee != 0 then addressee else ping.sender, Some(connection));
      SecondOut(attempts, out, addressee, waits);
      if !sent.Wrote? {
        return if sent.NoConnection? then NotConnected else OperationTimedOut;
      }
      ghost var again := attempts;
      var outcome := WaitIn(Direct, Some(sent.connection));
      LastWaited(tape, out, lane, living, addressee != 0, waits, pos);
      SecondWaited(again, attempts, out, addressee, before, waits[|waits| - 1]);
      match outcome
      case Answered(message) => return Answer(message);
      case TimedOut => return OperationTimedOut;
      case Unpinned => return NotConnected;
      case Refused => result := LateWait();
      case WatchGone => result := LateWait();
    }

    /** The search stage and the rest of the query: the second attempt if an instance is
        found, else the last wait. */
    method SearchOn() returns (result: Result)
      requires Underway() && !late && |attempts| == 1 && attempts[0].to == addressee && sends == 1 && Calls(Search)
      requires forall k :: 0 <= k < |waits| ==> waits[k].wait.stage.Request? && !waits[k].outcome.Found?
      modifies `pos, `attempts, `searched, `waits, `late, `nextId, `sends, `out, `search, `all
      ensures Finished(result)
    {
      hide AttemptsOk, IdsOk, Course, NoReply, StrikesOk, OpenAt, SameAttempts, AgainOk, Ended, WaitedOk;
      ghost var before := waits;
      OutCount(tape, pos, attempts, out, late);
      OneAttempt(attempts, out, addressee, waits);
      var searching := SendSearch();
      if !searching.Wrote? {
        return if searching.NoConnection? then NotConnected else OperationTimedOut;
      }
      assert searched[0] in all;
      ghost var was := attempts;
      var outcome := WaitIn(Search, lane);
      ghost var last := waits[|waits| - 1];
      LastWaited(tape, out, lane, living, addressee != 0, waits, pos);
      SameOne(was, attempts);
      if outcome.Found? {
        result := SendAgain(outcome.message, outcome.connection);
        return;
      }
      OneAttempt(attempts, out, addressee, waits);
      match outcome
      case Answered(message) => return Answer(message);
      case TimedOut => return OperationTimedOut;
      case Unpinned => return NotConnected;
      case Nobody => result := LateWait();
    }

    /** A query by type. */
    method QueryTyped() returns (result: Result)
      requires Valid() && Fresh() && addressee == 0
      modifies this
      ensures Finished(result)
    {
      hide AttemptsOk, IdsOk, StrikesOk, OpenAt, SameAttempts, AgainOk, Ended, WaitedOk;
      var sent := SendAttempt(0, None);
      OneAttempt(attempts, out, addressee, waits);
      if sent.NoConnection? {
        return NotConnected;
      }
      if sent.Wrote? {
        ghost var was := attempts;
        var outcome := WaitIn(Request, Some(sent.connection));
        LastWaited(tape, out, lane, living, addressee != 0, waits, pos);
        SameOne(was, attempts);
        OneAttempt(attempts, out, addressee, waits);
        if outcome.Answered? {
          return Answer(outcome.message);
        }
        if outcome.Unpinned? {
          return NotConnected;
        }
      }
      result := SearchOn();
    }

    /** A query addressed to one instance: nobody else ever gets the request. */
    method QueryAddressed() returns (result: Result)
      requires Valid() && Fresh() && addressee != 0
      modifies this
      ensures Finished(result)
      ensures forall k :: 0 <= k < |attempts| ==> attempts[k].to == addressee
    {
      hide AttemptsOk, IdsOk, StrikesOk, OpenAt, SameAttempts, AgainOk, Ended, WaitedOk;
      var sent := SendAttempt(addressee, None);
      OneAttempt(attempts, out, addressee, waits);
      if !sent.Wrote? {
        Addressed(attempts, out, addressee, waits);
        return if sent.NoConnection? then NotConnected else OperationTimedOut;
      }
      ghost var was := attempts;
      var outcome := WaitIn(Request, Some(sent.connection));
      LastWaited(tape, out, lane, living, addressee != 0, waits, pos);
      SameOne(was, attempts);
      OneAttempt(attempts, out, addressee, waits);
      match outcome {
        case Answered(message) => result := Answer(message);
        case TimedOut => result := OperationTimedOut;
        case Unpinned => result := NotConnected;
        case Refused => result := SearchOn();
        case WatchGone => result := SearchOn();
      }
      Addressed(attempts, out, addressee, waits);
    }
  }

  function Rank(stage: Stage): nat {
    match stage
    case Request => 0
    case Search => 1
    case Direct => 2
    case Late => 3
  }

  // What ends a wait, told from the tape

  /** A reply to an attempt, whatever the stage, is the last event of the wait it is read
      in, and its answer. */
  lemma ReplyEnds(tape: Tape, out: seq<Out>, wait: Wait, pinned: bool, outcome: Outcome, to: nat, i: nat, k: nat)
    requires Ended(tape, out, wait, pinned, outcome, to) && wait.from <= i < to && k < |out| && out[k].since <= i
    requires tape[i].Arrived? && tape[i].message.references == out[k].id
    requires tape[i].message.kind == Ping || tape[i].message.kind == Other
    ensures i == to - 1
  {
    hide ErrorAt, PingAt, NobodyAnywhere, NobodyHasIt, LosesWatch, Says;
    assert ReplyTo(tape, out[k], i);
    assert Ends(tape, out, wait, i);
  }

  /** A PING for the search is the last event of its wait, and finds its sender. */
  lemma PingFinds(tape: Tape, out: seq<Out>, wait: Wait, pinned: bool, outcome: Outcome, to: nat, i: nat)
    requires Ended(tape, out, wait, pinned, outcome, to) && wait.stage.Search? && wait.from <= i < to
    requires tape[i].Arrived? && tape[i].message.kind == Ping && tape[i].message.references == wait.search
    requires forall k :: 0 <= k < |out| ==> out[k].id != wait.search
    ensures i == to - 1 && outcome == Found(tape[i].message, tape[i].connection)
  {
    hide NobodyAnywhere, NobodyHasIt;
    assert PingAt(tape, wait.search, i);
    assert Ends(tape, out, wait, i);
  }

  /** Every connection searched having said nobody ends the search, and only that or a PING,
      a reply, the time or the loss of the connection watched. */
  lemma NobodyFound(tape: Tape, out: seq<Out>, wait: Wait, pinned: bool, outcome: Outcome, to: nat, i: nat)
    requires Ended(tape, out, wait, pinned, outcome, to) && wait.stage.Search? && wait.from <= i < to
    requires forall c :: c in wait.all ==>
      exists j :: wait.from <= j <= i && SaysNobody(tape, wait.search, c, j)
    ensures i == to - 1
  {
    hide ReplyAt, PingAt;
    forall c | c in wait.all ensures NobodyFrom(tape, wait.search, c, wait.from, i + 1) {
      var j :| wait.from <= j <= i && SaysNobody(tape, wait.search, c, j);
      assert ErrorAt(tape, wait.search, j);
    }
    assert Ends(tape, out, wait, i);
  }

  /** A delivery error for the search, from a connection. */
  ghost predicate SaysNobody(tape: Tape, search: Id, c: Connection, j: nat) {
    && j < |tape| && tape[j].Arrived? && tape[j].connection == c
    && tape[j].message.kind == DeliveryError && tape[j].message.references == search
  }

  /** A delivery error for the attempt sent last ends the request's wait, and the second's,
      as refused. */
  lemma ErrorRefuses(tape: Tape, out: seq<Out>, wait: Wait, pinned: bool, outcome: Outcome, to: nat, i: nat)
    requires Ended(tape, out, wait, pinned, outcome, to) && (wait.stage.Request? || wait.stage.Direct?) && wait.from <= i < to
    requires tape[i].Arrived? && tape[i].message.kind == DeliveryError && tape[i].message.references == wait.last
    ensures i == to - 1 && outcome == Refused
  {
    hide NobodyAnywhere, NobodyHasIt;
    assert ErrorAt(tape, wait.last, i);
    assert Ends(tape, out, wait, i);
  }

  /** Delivery errors for all the attempts somebody had end the last wait. */
  lemma ErrorsLeaveNobody(tape: Tape, out: seq<Out>, wait: Wait, pinned: bool, outcome: Outcome, to: nat, i: nat)
    requires Ended(tape, out, wait, pinned, outcome, to) && wait.stage.Late? && wait.from <= i < to
    requires forall id :: id in wait.open ==> exists j :: wait.from <= j <= i && ErrorAt(tape, id, j)
    ensures i == to - 1
  {
    hide ErrorAt, ReplyAt, PingAt;
    assert Ends(tape, out, wait, i);
  }

  /** The end of the time, or of the connection watched, ends any wait. */
  lemma TimeEnds(tape: Tape, out: seq<Out>, wait: Wait, pinned: bool, outcome: Outcome, to: nat, i: nat)
    requires Ended(tape, out, wait, pinned, outcome, to) && wait.from <= i < to
    requires tape[i] == Expired || (wait.watch.Some? && tape[i] == ConnectionLost(wait.watch.value))
    ensures i == to - 1
    ensures outcome == if tape[i] == Expired then TimedOut else if pinned then Unpinned else WatchGone
  {
    hide NobodyAnywhere, NobodyHasIt;
    assert LosesWatch(tape, wait, i) || tape[i].Expired?;
    assert Ends(tape, out, wait, i);
  }

  /** And each outcome has its event: nothing but these ends a wait so. */
  lemma OutcomeBecause(tape: Tape, out: seq<Out>, wait: Wait, pinned: bool, outcome: Outcome, to: nat)
    requires Ended(tape, out, wait, pinned, outcome, to) && !outcome.TimedOut?
    ensures wait.from < to <= |tape|
    ensures var event := tape[to - 1];
            match outcome
            case Answered(message) => event.Arrived? && event.message == message && exists k :: 0 <= k < |out| && out[k].id == message.references
            case Refused => event.Arrived? && event.message.kind == DeliveryError && event.message.references == wait.last
            case Found(message, c) => event == Arrived(message, c) && message.kind == Ping && message.references == wait.search
            case Nobody => event.Arrived? && event.message.kind == DeliveryError
            case WatchGone => !pinned && wait.watch.Some? && event == ConnectionLost(wait.watch.value)
            case Unpinned => pinned && wait.watch.Some? && event == ConnectionLost(wait.watch.value)
            case TimedOut => false
  {
    hide NobodyAnywhere, NobodyHasIt;
  }

  /** Later waits are of later stages. */
  lemma {:induction false} NeverBack(tape: Tape, out: seq<Out>, lane: Option<Connection>, living: set<Connection>, addressed: bool, waits: seq<Waited>,
                                     pos: nat, i: nat, j: nat)
    requires Course(tape, out, lane, living, addressed, waits, pos) && i < j < |waits|
    ensures Rank(waits[i].wait.stage) < Rank(waits[j].wait.stage)
    decreases j
  {
    hide WaitedOk;
    assert Follows(waits[j - 1], waits[j].wait.stage, addressed);
    if i < j - 1 {
      NeverBack(tape, out, lane, living, addressed, waits, pos, i, j - 1);
    }
  }

  /** The last wait without a second attempt is after a search that every connection
      answered with nobody. */
  lemma LateWithoutSecond(tape: Tape, attempts: seq<Attempt>, out: seq<Out>, lane: Option<Connection>, living: set<Connection>, addressee: Instance,
                          waits: seq<Waited>, pos: nat, k: nat)
    requires Course(tape, out, lane, living, addressee != 0, waits, pos) && AgainOk(attempts, out, addressee, waits) && |attempts| == 1
    requires 0 < k < |waits| && waits[k].wait.stage.Late?
    ensures waits[k - 1].wait.stage.Search? && NobodyAnywhere(tape, waits[k - 1].wait, waits[k - 1].to)
  {
    hide NobodyAnywhere, NobodyHasIt, ReplyAt, ErrorAt, PingAt;
    assert Follows(waits[k - 1], waits[k].wait.stage, addressee != 0);
    assert WaitedOk(tape, out, lane, living, waits[k - 1]);
  }

  lemma OneMoreOut(tape: Tape, pos: nat, attempts: seq<Attempt>, out: seq<Out>, attempt: Attempt, now: Out)
    requires AttemptsOk(tape, pos, pos, attempts, out, false) && |attempts| < 2
    requires now.id == attempt.id && now.since == pos && now.placed == attempt.state && !attempt.struck
    ensures AttemptsOk(tape, pos, pos, attempts + [attempt], out + [now], false)
  {
    hide StateAt;
    assert StateAt(tape, now, pos) == now.placed by { StateAtFirst(tape, now); }
    forall k | 0 <= k < |attempts| + 1
      ensures AttemptOk(tape, pos, pos, (attempts + [attempt])[k], (out + [now])[k], false)
    {
      if k < |attempts| {
        assert AttemptOk(tape, pos, pos, attempts[k], out[k], false);
      }
    }
  }

  lemma StateAtFirst(tape: Tape, out: Out)
    requires out.since <= |tape|
    ensures StateAt(tape, out, out.since) == out.placed
  {
  }

  lemma OutCount(tape: Tape, pos: nat, attempts: seq<Attempt>, out: seq<Out>, late: bool)
    requires AttemptsOk(tape, pos, pos, attempts, out, late)
    ensures |out| == |attempts|
  {
  }

  /** The stage a wait was of allows what it ended with. */
  lemma LastWaited(tape: Tape, out: seq<Out>, lane: Option<Connection>, living: set<Connection>, addressed: bool, waits: seq<Waited>, pos: nat)
    requires Course(tape, out, lane, living, addressed, waits, pos) && waits != []
    ensures var last := waits[|waits| - 1];
            && WaitedOk(tape, out, lane, living, last) && last.to == pos
            && match last.outcome
               case Refused => last.wait.stage.Request? || last.wait.stage.Direct?
               case Found(_, _) => last.wait.stage.Search?
               case Nobody => last.wait.stage.Search? || last.wait.stage.Late?
               case WatchGone => lane.None? && last.wait.watch.Some?
               case Unpinned => lane.Some?
               case _ => true
  {
    hide Ends, Follows, NobodyAnywhere, NobodyHasIt, ReplyAt, ErrorAt, PingAt;
    var last := waits[|waits| - 1];
    assert WaitedOk(tape, out, lane, living, last);
  }

  lemma SameSecond(was: seq<Attempt>, now: seq<Attempt>, out: seq<Out>, addressee: Instance, waits: seq<Waited>)
    requires AgainOk(was, out, addressee, waits) && SameAttempts(was, now)
    ensures AgainOk(now, out, addressee, waits)
  {
  }

  lemma SecondWaited(was: seq<Attempt>, now: seq<Attempt>, out: seq<Out>, addressee: Instance, waits: seq<Waited>, last: Waited)
    requires AgainOk(was, out, addressee, waits) && SameAttempts(was, now) && !last.outcome.Found?
    ensures AgainOk(now, out, addressee, waits + [last])
  {
    var more := waits + [last];
    assert forall k :: 0 <= k < |waits| ==> more[k] == waits[k];
    if exists k :: 0 <= k < |waits| && waits[k].outcome.Found? {
      var k :| 0 <= k < |waits| && waits[k].outcome.Found?;
      assert more[k].outcome.Found?;
    }
  }

  lemma SecondOut(attempts: seq<Attempt>, out: seq<Out>, addressee: Instance, waits: seq<Waited>)
    requires |attempts| == |out| == 2 && waits != [] && waits[|waits| - 1].outcome.Found?
    requires forall k :: 0 <= k < |waits| - 1 ==> !waits[k].outcome.Found?
    requires out[1].since == waits[|waits| - 1].to && attempts[1].preferred == Some(waits[|waits| - 1].outcome.connection)
    requires attempts[1].to == if addressee != 0 then addressee else waits[|waits| - 1].outcome.message.sender
    requires attempts[0].to == addressee
    ensures AgainOk(attempts, out, addressee, waits)
  {
  }

  lemma OneAttempt(attempts: seq<Attempt>, out: seq<Out>, addressee: Instance, waits: seq<Waited>)
    requires |attempts| == |out| == 1 && attempts[0].to == addressee
    requires forall k :: 0 <= k < |waits| ==> !waits[k].outcome.Found?
    ensures AgainOk(attempts, out, addressee, waits)
  {
  }

  lemma Addressed(attempts: seq<Attempt>, out: seq<Out>, addressee: Instance, waits: seq<Waited>)
    requires AgainOk(attempts, out, addressee, waits) && addressee != 0
    ensures forall k :: 0 <= k < |attempts| ==> attempts[k].to == addressee
  {
  }

  lemma SameOne(was: seq<Attempt>, now: seq<Attempt>)
    requires SameAttempts(was, now) && |was| == 1
    ensures |now| == 1 && now[0].to == was[0].to
  {
  }

  /** Once what is not out is struck off, what is left is what somebody may have. */
  lemma OpenIs(tape: Tape, pos: nat, was: seq<Attempt>, now: seq<Attempt>, out: seq<Out>)
    requires AttemptsOk(tape, pos, pos, was, out, false) && SameAttempts(was, now)
    requires forall k :: 0 <= k < |now| ==>
      now[k].state == was[k].state && (now[k].struck <==> was[k].struck || NotOut(now[k].state))
    ensures Unstruck(now) == OpenAt(tape, out, pos)
  {
    hide ErrorIn, StateAt;
    forall k | 0 <= k < |out|
      ensures now[k].id == out[k].id && out[k].since <= pos <= |tape|
      ensures !now[k].struck <==> !ErrorIn(tape, out[k].id, out[k].since, pos) && !NotOut(StateAt(tape, out[k], pos))
    {
      assert AttemptOk(tape, pos, pos, was[k], out[k], false);
    }
  }

  lemma NoneUnstruck(attempts: seq<Attempt>)
    requires !exists k :: 0 <= k < |attempts| && !attempts[k].struck
    ensures Unstruck(attempts) == {}
  {
  }

  /** With every attempt struck off, none is left that somebody may have. */
  lemma NobodyLeft(tape: Tape, pos: nat, attempts: seq<Attempt>, out: seq<Out>, lane: Option<Connection>, living: set<Connection>, late: bool,
                   last: Waited)
    requires AttemptsOk(tape, pos, pos, attempts, out, late) && StrikesOk(tape, last.wait, attempts, pos)
    requires WaitedOk(tape, out, lane, living, last) && last.wait.stage.Late? && last.outcome.Nobody? && last.to == pos
    ensures OpenAt(tape, out, pos) == {}
  {
    AnyOpen(tape, last.wait, attempts, pos);
    hide ErrorIn, StateAt, StrikesOk, Ends, ErrorAt;
    forall k | 0 <= k < |out|
      ensures ErrorIn(tape, out[k].id, out[k].since, pos) || NotOut(StateAt(tape, out[k], pos))
    {
      assert AttemptOk(tape, pos, pos, attempts[k], out[k], late);
    }
  }

  /** The connections of a set, each once. */
  method Listed(connections: set<Connection>) returns (list: seq<Connection>)
    ensures Distinct(list) && (set c | c in list) == connections && (connections != {} ==> list != [])
  {
    list := [];
    var left := connections;
    while left != {}
      invariant left <= connections && Distinct(list) && forall c :: c in list <==> c in connections && c !in left
      decreases |left|
    {
      var c :| c in left;
      list := list + [c];
      left := left - {c};
    }
    assert forall c :: c in connections ==> c in list;
  }

  /** The wait ended by a reply, the first there was, or there has been none. */
  ghost predicate AnsweredOr(tape: Tape, out: seq<Out>, pos: nat, outcome: Outcome) {
    if outcome.Answered? then
      && 0 < pos <= |tape| && ReplyAt(tape, out, pos - 1) && tape[pos - 1].message == outcome.message
      && NoReply(tape, out, pos - 1)
    else
      NoReply(tape, out, pos)
  }

  function Unstruck(attempts: seq<Attempt>): set<Id> {
    set k | 0 <= k < |attempts| && !attempts[k].struck :: attempts[k].id
  }

  /** What got is a reply exactly when it refers to an attempt and is no delivery error. */
  lemma Replied(tape: Tape, pos: nat, attempts: seq<Attempt>, out: seq<Out>, late: bool, at: nat)
    requires AttemptsOk(tape, pos, at, attempts, out, late) && at < pos && tape[at].Arrived?
    requires !tape[at].message.kind.RequestReceived?
    ensures ReplyAt(tape, out, at) <==> tape[at].message.references in Ids(attempts) && !tape[at].message.kind.DeliveryError?
    ensures forall k :: 0 <= k < |attempts| ==> out[k].id == attempts[k].id
  {
    hide ErrorIn, StateAt;
    forall k | 0 <= k < |attempts| ensures out[k].id == attempts[k].id && out[k].since <= at {
      assert AttemptOk(tape, pos, at, attempts[k], out[k], late);
    }
    if tape[at].message.references in Ids(attempts) && !tape[at].message.kind.DeliveryError? {
      var k :| 0 <= k < |attempts| && attempts[k].id == tape[at].message.references;
      assert ReplyTo(tape, out[k], at);
    }
  }

  lemma StrikesQuiet(tape: Tape, wait: Wait, attempts: seq<Attempt>, at: nat)
    requires StrikesOk(tape, wait, attempts, at) && wait.from <= at
    requires forall k :: 0 <= k < |attempts| ==> !ErrorAt(tape, attempts[k].id, at)
    ensures StrikesOk(tape, wait, attempts, at + 1)
  {
    hide ErrorIn, ErrorAt, Ids;
    forall k | 0 <= k < |attempts| {
      ErrorInMore(tape, attempts[k].id, wait.from, at);
    }
  }

  /** An event that is no "nobody" leaves who is waited for. */
  lemma NotTheSearch(tape: Tape, wait: Wait, searched: seq<Connection>, at: nat)
    requires SearchedOk(tape, wait, searched, at) && wait.from <= at && !ErrorAt(tape, wait.search, at)
    ensures SearchedOk(tape, wait, searched, at + 1)
    ensures NobodyAnywhere(tape, wait, at + 1) <==> NobodyAnywhere(tape, wait, at)
  {
    hide NobodyFrom, ErrorAt, Distinct;
    forall c ensures NobodyFrom(tape, wait.search, c, wait.from, at + 1) <==> NobodyFrom(tape, wait.search, c, wait.from, at) {
      NobodyFromMore(tape, wait.search, c, wait.from, at);
    }
  }

  lemma Begins(tape: Tape, out: seq<Out>, wait: Wait, attempts: seq<Attempt>, searched: seq<Connection>, next: Id)
    requires wait.from <= |tape| && wait.open == Unstruck(attempts)
    requires wait.stage.Search? ==> Distinct(searched) && searched != [] && wait.all == set c | c in searched
    requires wait.stage.Late? ==> exists k :: 0 <= k < |attempts| && !attempts[k].struck
    requires IdsOk(attempts, wait.search, next)
    ensures wait.open <= Ids(attempts)
    ensures Going(tape, out, wait, wait.from) && WaitingOk(tape, wait, attempts, searched, wait.from)
  {
    if wait.stage.Search? {
      assert searched[0] in wait.all;
    }
    if wait.stage.Late? {
      var k :| 0 <= k < |attempts| && !attempts[k].struck;
      assert attempts[k].id in wait.open;
    }
  }

  lemma TakesAll(tape: Tape, pos: nat, attempts: seq<Attempt>, out: seq<Out>, late: bool, wait: Wait, accept: set<Id>)
    requires AttemptsOk(tape, pos, pos, attempts, out, late) && attempts != []
    requires Ids(attempts) <= accept && (wait.stage.Search? ==> wait.search in accept)
    requires wait.last == attempts[|attempts| - 1].id && wait.open <= Ids(attempts)
    ensures Accepts(wait, out, accept)
  {
    hide ErrorIn, StateAt;
    InAccept(attempts, accept);
    forall k | 0 <= k < |out| ensures out[k].id in accept {
      assert AttemptOk(tape, pos, pos, attempts[k], out[k], late);
    }
  }

  lemma InAccept(attempts: seq<Attempt>, accept: set<Id>)
    requires Ids(attempts) <= accept
    ensures forall k :: 0 <= k < |attempts| ==> attempts[k].id in accept
  {
    assert forall k :: 0 <= k < |attempts| ==> attempts[k].id in Ids(attempts);
  }

  lemma SameStrikes(tape: Tape, wait: Wait, was: seq<Attempt>, now: seq<Attempt>, at: nat)
    requires StrikesOk(tape, wait, was, at) && SameAttempts(was, now)
    requires forall k :: 0 <= k < |was| ==> now[k].struck == was[k].struck
    ensures StrikesOk(tape, wait, now, at)
  {
    hide ErrorIn;
    assert forall k :: 0 <= k < |was| ==> now[k].id == was[k].id;
    assert Ids(now) == Ids(was);
  }

  lemma TimeOver(tape: Tape, out: seq<Out>, wait: Wait, pinned: bool, attempts: seq<Attempt>, at: nat, pos: nat)
    requires Going(tape, out, wait, at) && NoReply(tape, out, at) && StrikesOk(tape, wait, attempts, at)
    requires pos == at == |tape| || (pos == at + 1 <= |tape| && tape[at].Expired?)
    ensures Ended(tape, out, wait, pinned, TimedOut, pos) && NoReply(tape, out, pos) && StrikesOk(tape, wait, attempts, pos)
  {
    if pos == at + 1 {
      assert Ends(tape, out, wait, at);
      StrikesQuiet(tape, wait, attempts, at);
    }
  }

  lemma WatchOver(tape: Tape, out: seq<Out>, wait: Wait, pinned: bool, attempts: seq<Attempt>, outcome: Outcome, pos: nat)
    requires 0 < pos <= |tape| && Going(tape, out, wait, pos - 1) && NoReply(tape, out, pos - 1)
    requires LosesWatch(tape, wait, pos - 1) && outcome == (if pinned then Unpinned else WatchGone)
    requires StrikesOk(tape, wait, attempts, pos - 1)
    ensures Ended(tape, out, wait, pinned, outcome, pos) && NoReply(tape, out, pos) && StrikesOk(tape, wait, attempts, pos)
  {
    assert Ends(tape, out, wait, pos - 1);
    StrikesQuiet(tape, wait, attempts, pos - 1);
  }

  lemma Since(tape: Tape, out: seq<Out>, wait: Wait, at: nat)
    requires Going(tape, out, wait, at)
    ensures wait.from <= at
  {
  }

  lemma HeardLast(tape: Tape, out: seq<Out>, wait: Wait, pinned: bool, pos: nat, outcome: Outcome)
    requires 0 < pos <= |tape| && NoReply(tape, out, pos - 1) && tape[pos - 1].Arrived?
    requires outcome.Answered? <==> ReplyAt(tape, out, pos - 1)
    requires Says(tape, out, wait, pos - 1, pinned, outcome)
    ensures AnsweredOr(tape, out, pos, outcome)
  {
    hide ReplyAt;
  }

  lemma SameIds(was: seq<Attempt>, now: seq<Attempt>, search: Id, next: Id)
    requires SameAttempts(was, now)
    ensures Ids(now) == Ids(was) && (IdsOk(was, search, next) ==> IdsOk(now, search, next))
  {
    assert forall k :: 0 <= k < |was| ==> now[k].id == was[k].id;
  }

  lemma Within(tape: Tape, pos: nat, heard: nat, attempts: seq<Attempt>, out: seq<Out>, late: bool)
    requires AttemptsOk(tape, pos, heard, attempts, out, late)
    ensures heard <= pos <= |tape|
  {
  }

  lemma Unaddressed(tape: Tape, i: nat, attempts: seq<Attempt>, accept: set<Id>)
    requires i < |tape| && Ids(attempts) <= accept
    requires tape[i].Arrived? ==> tape[i].message.kind.RequestReceived? || tape[i].message.references !in accept
    ensures forall k :: 0 <= k < |attempts| ==> !ErrorAt(tape, attempts[k].id, i)
  {
    assert forall k :: 0 <= k < |attempts| ==> attempts[k].id in Ids(attempts);
  }
}
