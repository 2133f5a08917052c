/** The state of confirmed sends as values: batches, the runs and due times that index
    them, and the invariants that tie these together. The operations are in
    `Confirmer`. */
module Confirming {
  import opened Common
  import opened Flags

  type Id = nat    // an envelope's id
  type Time = int  // ticks of the steady clock

  const NEVER: Time := 0x7FFF_FFFF_FFFF_FFFF

  /** What the one timer of the batches does: nothing, run to a time, or have
      its handler at work, which arms it anew at its end. */
  datatype Timer = Idle | At(time: Time) | Firing
  {
    predicate Later(due: Time) {
      Idle? || (At? && due < time)
    }
  }

  datatype DropReason = NoRoom | NoConnection | ConnectionLost | ShutDown | NotConfirmed | Failed

  /** How a confirmed send ends. Unsendable is told as NotConfirmed: no frame could
      hold the message, or it could not be read back to go again. */
  datatype Outcome = Processed | GivenUp(reason: DropReason) | Unsendable

  /** What every batch made by one send has, and the connection that each envelope is
      placed on. */
  datatype Terms = Terms(deadline: Time, retryAfter: nat, backoff: nat, goesBy: Id -> Option<nat>)

  /** A message on its way into a frame: its number, 0 before it has one, and
      whether someone hears its end. */
  datatype Record = Record(number: nat, followed: bool)

  /** A batch waited for. Message i has number `numbers[i]`, or `first + i` where
      `numbers` is empty. */
  datatype Batch = Batch(
    count: nat,
    first: nat,
    numbers: seq<nat>,
    followed: set<nat>,
    resolved: seq<bool>,
    unresolved: int,
    runKeys: seq<nat>,
    placedOn: Option<nat>,
    written: bool,
    retryAfter: nat,
    retryAt: Time,
    backoff: nat,
    deadline: Time,
    due: Time)
  {
    function Number(index: nat): nat {
      if index < |numbers| then numbers[index] else first + index
    }
  }

  /** Messages `index` to `index + count` of a batch, numbered from the run's key on, of
      which `unresolved` are open. */
  datatype Run = Run(batch: Id, index: nat, count: nat, unresolved: nat)

  /** What a CONFIRMATION's list names in one run. */
  datatype Segment = Segment(batch: Id, key: nat, begin: nat, end: nat)

  datatype Slot = Slot(id: Id, index: nat)

  type Batches = map<Id, Batch>
  type Runs = map<nat, Run>
  type Places = map<nat, Slot>  // where each number waited for is held

  // Batches and the places of the numbers waited for

  ghost predicate BatchOk(b: Batch) {
    && |b.resolved| == b.count > 0
    && (b.numbers == [] || |b.numbers| == b.count)
    && b.unresolved == Clear(b.resolved)
  }

  ghost predicate BatchesOk(byId: Batches) {
    forall id :: id in byId ==> BatchOk(byId[id])
  }

  /** A slot that holds a message not resolved yet. */
  ghost predicate Open(byId: Batches, s: Slot) {
    s.id in byId && s.index < |byId[s.id].resolved| && !byId[s.id].resolved[s.index]
  }

  ghost function NumberAt(byId: Batches, s: Slot): nat
    requires s.id in byId
  {
    byId[s.id].Number(s.index)
  }

  /** Each number waited for is held in exactly one open slot, and each open
      slot holds a number waited for. */
  ghost predicate Placed(byId: Batches, places: Places) {
    && (forall n :: n in places ==> Open(byId, places[n]) && NumberAt(byId, places[n]) == n)
    && (forall s :: Open(byId, s) ==> NumberAt(byId, s) in places && places[NumberAt(byId, s)] == s)
  }

  /** The numbers given so far are those waited for, those ended and, within an
      operation, those on their way to another batch: no number is two of these. */
  ghost predicate Conserved(last: nat, places: Places, ended: map<nat, Outcome>, moving: set<nat>) {
    && (forall n :: 1 <= n <= last <==> n in places || n in ended || n in moving)
    && places.Keys !! ended.Keys
    && places.Keys !! moving
    && ended.Keys !! moving
  }

  ghost predicate FollowedAt(byId: Batches, s: Slot) {
    s.id in byId && s.index in byId[s.id].followed
  }

  /** Someone hears the end of exactly the followed numbers, once each: `told`
      is what was said of each. */
  ghost predicate Followed(byId: Batches, places: Places, ended: map<nat, Outcome>, follows: set<nat>, told: map<nat, bool>) {
    && (forall n :: n in places ==> (n in follows <==> FollowedAt(byId, places[n])))
    && (forall n :: n in told <==> n in ended && n in follows)
    && (forall n :: n in told ==> told[n] == ended[n].Processed?)
  }

  /** The ends not run yet are of numbers told of, each once, none run before. */
  ghost predicate EndsOk(ends: seq<(nat, bool)>, told: map<nat, bool>, ran: set<nat>) {
    && (forall i :: 0 <= i < |ends| ==> ends[i].0 in told && told[ends[i].0] == ends[i].1 && ends[i].0 !in ran)
    && (forall i, j :: 0 <= i < j < |ends| ==> ends[i].0 != ends[j].0)
    && (forall n :: n in told ==> n in ran || exists i :: 0 <= i < |ends| && ends[i].0 == n)
    && ran <= told.Keys
  }

  // The index of runs

  ghost predicate RunOk(key: nat, run: Run, b: Batch, ended: map<nat, Outcome>) {
    && 0 < run.count
    && run.index + run.count <= |b.resolved|
    && (forall i :: run.index <= i < run.index + run.count ==> b.Number(i) == key + (i - run.index))
    && (forall i :: run.index <= i < run.index + run.count && b.resolved[i] ==> key + (i - run.index) in ended)
    && 0 < run.unresolved == Clear(b.resolved[run.index..run.index + run.count])
  }

  /** `run`, found by `key`, holds number `n` at slot `s`. */
  ghost predicate Holds(run: Run, key: nat, n: nat, s: Slot) {
    key <= n < key + run.count && run.batch == s.id && run.index + (n - key) == s.index
  }

  ghost predicate KeysListed(runs: Runs, byId: Batches) {
    forall k :: k in runs ==> runs[k].batch in byId && k in byId[runs[k].batch].runKeys
  }

  ghost predicate RunsExact(runs: Runs, byId: Batches, ended: map<nat, Outcome>, stale: set<Id>) {
    forall k :: k in runs && runs[k].batch in byId && runs[k].batch !in stale ==> RunOk(k, runs[k], byId[runs[k].batch], ended)
  }

  ghost predicate Disjoint(runs: Runs, stale: set<Id>) {
    forall k, k' :: k in runs && k' in runs && k < k' && runs[k].batch !in stale && runs[k'].batch !in stale ==>
                      k + runs[k].count <= k'
  }

  ghost predicate Covered(runs: Runs, places: Places, stale: set<Id>) {
    forall n :: n in places && places[n].id !in stale ==> exists k :: k in runs && Holds(runs[k], k, n, places[n])
  }

  /** The runs are disjoint intervals of numbers, each with its exact and
      positive count of unresolved ones, and every number waited for lies in
      the run that says where it is held; but for the batches `stale`, whose
      runs are about to be registered anew. */
  ghost predicate Indexed(runs: Runs, byId: Batches, places: Places, ended: map<nat, Outcome>, stale: set<Id>) {
    && KeysListed(runs, byId)
    && RunsExact(runs, byId, ended, stale)
    && Disjoint(runs, stale)
    && Covered(runs, places, stale)
  }

  // The times

  /** The earlier of a batch's deadline and, once it is written, its retry time. */
  function DueOf(b: Batch): (due: Time)
    ensures due <= b.deadline && (b.written ==> due <= b.retryAt)
    ensures due == b.deadline || (b.written && due == b.retryAt)
  {
    if b.written && b.retryAt < b.deadline then b.retryAt else b.deadline
  }

  /** A batch with the time it is due by. */
  function Due(b: Batch): Batch {
    b.(due := DueOf(b))
  }

  ghost predicate DueIndexed(byId: Batches, byDue: set<(Time, Id)>) {
    forall e :: e in byDue <==> e.1 in byId && byId[e.1].due == e.0 && e.0 != NEVER
  }

  /** A batch is due by its deadline and, written, by its retry time, and no sooner. */
  ghost predicate DueInTime(b: Batch) {
    && b.due <= b.deadline && (b.written ==> b.due <= b.retryAt)
    && (b.due == b.deadline || (b.written && b.due == b.retryAt))
  }

  ghost predicate DueCurrent(byId: Batches, stale: set<Id>) {
    forall id :: id in byId && id !in stale ==> DueInTime(byId[id])
  }

  ghost predicate Armed(byDue: set<(Time, Id)>, timer: Timer) {
    timer.Firing? || if byDue == {} then timer.Idle? else timer.At? && forall e :: e in byDue ==> timer.time <= e.0
  }

  ghost predicate Earliest(byDue: set<(Time, Id)>, first: (Time, Id)) {
    first in byDue && forall e :: e in byDue ==> first.0 <= e.0
  }

  lemma {:induction false} EarliestExists(byDue: set<(Time, Id)>) returns (first: (Time, Id))
    requires byDue != {}
    ensures Earliest(byDue, first)
  {
    var one :| one in byDue;
    var rest := byDue - {one};
    first := one;
    if rest != {} {
      var other := EarliestExists(rest);
      first := if other.0 < one.0 then other else one;
    }
    forall e | e in byDue
      ensures first.0 <= e.0
    {
      assert e == one || e in rest;
    }
  }

  // Resolving messages

  /** The numbers of the open slots of [begin, end). */
  ghost function OpenNumbers(b: Batch, begin: nat, end: nat): set<nat>
    requires end <= |b.resolved|
  {
    set i | begin <= i < end && !b.resolved[i] :: b.Number(i)
  }

  function Marked(b: Batch, begin: nat, end: nat): Batch
    requires begin <= end <= |b.resolved|
  {
    b.(resolved := Mark(b.resolved, begin, end), unresolved := b.unresolved - Clear(b.resolved[begin..end]))
  }

  lemma MarkedOk(b: Batch, begin: nat, end: nat)
    requires BatchOk(b) && begin <= end <= |b.resolved|
    ensures BatchOk(Marked(b, begin, end))
  {
    ClearMarked(b.resolved, begin, end);
  }

  /** Resolving the open slots of a range takes exactly their numbers out of the
      places, as many as were open. */
  lemma MarkedPlaces(byId: Batches, places: Places, id: Id, begin: nat, end: nat)
    requires BatchesOk(byId) && Placed(byId, places) && id in byId
    requires begin <= end <= |byId[id].resolved|
    ensures Placed(byId[id := Marked(byId[id], begin, end)], places - OpenNumbers(byId[id], begin, end))
    ensures OpenNumbers(byId[id], begin, end) <= places.Keys
  {
    var b := byId[id];
    MarkedOk(b, begin, end);
    var gone := OpenNumbers(b, begin, end);
    var byId', places' := byId[id := Marked(b, begin, end)], places - gone;
    forall i | begin <= i < end && !b.resolved[i]
      ensures b.Number(i) in places && places[b.Number(i)] == Slot(id, i)
    {
      assert Open(byId, Slot(id, i));
    }
    forall n | n in places'
      ensures Open(byId', places'[n]) && NumberAt(byId', places'[n]) == n
    {
      assert Open(byId, places[n]);
    }
    forall s | Open(byId', s)
      ensures NumberAt(byId', s) in places' && places'[NumberAt(byId', s)] == s
    {
      assert Open(byId, s);
    }
  }

  lemma OpenStep(b: Batch, begin: nat, last: nat)
    requires begin <= last < |b.resolved|
    ensures b.resolved[last] ==> OpenNumbers(b, begin, last + 1) == OpenNumbers(b, begin, last)
    ensures !b.resolved[last] ==> OpenNumbers(b, begin, last + 1) == OpenNumbers(b, begin, last) + {b.Number(last)}
    ensures Clear(b.resolved[begin..last + 1]) == Clear(b.resolved[begin..last]) + if b.resolved[last] then 0 else 1
  {
    assert b.resolved[begin..last + 1][..last - begin] == b.resolved[begin..last];
    if !b.resolved[last] {
      var more := OpenNumbers(b, begin, last) + {b.Number(last)};
      forall n | n in more
        ensures n in OpenNumbers(b, begin, last + 1)
      {
        var i :| begin <= i < last + 1 && !b.resolved[i] && b.Number(i) == n;
      }
    }
  }

  /** Two places open have different numbers. */
  lemma OpenApart(byId: Batches, places: Places, id: Id, begin: nat, end: nat)
    requires Placed(byId, places) && id in byId && begin <= end < |byId[id].resolved| && !byId[id].resolved[end]
    ensures byId[id].Number(end) !in OpenNumbers(byId[id], begin, end)
  {
    var b := byId[id];
    assert Open(byId, Slot(id, end));
    forall i | begin <= i < end && !b.resolved[i]
      ensures b.Number(i) != b.Number(end)
    {
      assert Open(byId, Slot(id, i));
    }
  }

  lemma {:induction false} OpenCount(byId: Batches, places: Places, id: Id, begin: nat, end: nat)
    requires Placed(byId, places) && id in byId
    requires begin <= end <= |byId[id].resolved|
    ensures |OpenNumbers(byId[id], begin, end)| == Clear(byId[id].resolved[begin..end])
  {
    hide Placed;
    var b := byId[id];
    if begin == end {
      assert OpenNumbers(b, begin, end) == {};
    } else {
      hide OpenNumbers, Clear;
      OpenCount(byId, places, id, begin, end - 1);
      OpenStep(b, begin, end - 1);
      if !b.resolved[end - 1] {
        OpenApart(byId, places, id, begin, end - 1);
      }
    }
  }

  lemma OpenOne(b: Batch, i: nat)
    requires i < |b.resolved|
    ensures OpenNumbers(b, i, i + 1) == if b.resolved[i] then {} else {b.Number(i)}
    ensures Clear(b.resolved[i..i + 1]) == if b.resolved[i] then 0 else 1
  {
    OpenStep(b, i, i);
    assert OpenNumbers(b, i, i) == {};
  }

  lemma RemovedCount(places: Places, gone: set<nat>)
    requires gone <= places.Keys
    ensures |places - gone| == |places| - |gone|
  {
    assert (places - gone).Keys == places.Keys - gone;
  }

  // Registering a batch's runs anew

  /** A number waited for that lies in a run's interval is held where the run
      says: what else a run spans has ended. */
  lemma RunHolds(runs: Runs, byId: Batches, places: Places, ended: map<nat, Outcome>, k: nat, n: nat)
    requires Placed(byId, places) && places.Keys !! ended.Keys
    requires k in runs && runs[k].batch in byId && RunOk(k, runs[k], byId[runs[k].batch], ended)
    requires n in places && k <= n < k + runs[k].count
    ensures Holds(runs[k], k, n, places[n])
  {
    var s := Slot(runs[k].batch, runs[k].index + (n - k));
    assert NumberAt(byId, s) == n;
    assert Open(byId, s);
  }

  /** The runs while batch `id`'s are registered, its slots below `upTo` done. */
  ghost predicate Rebuilding(runs: Runs, byId: Batches, places: Places, ended: map<nat, Outcome>, id: Id, upTo: nat) {
    && (forall k :: k in runs ==> runs[k].batch in byId)
    && (forall k :: k in runs && runs[k].batch == id ==> runs[k].index + runs[k].count <= upTo)
    && RunsExact(runs, byId, ended, {})
    && Disjoint(runs, {})
    && (forall n :: n in places && (places[n].id != id || places[n].index < upTo) ==>
                      exists k :: k in runs && Holds(runs[k], k, n, places[n]))
  }

  function WithoutBatch(runs: Runs, id: Id): Runs {
    map k | k in runs && runs[k].batch != id :: runs[k]
  }

  /** The runs of a batch at some of its keys erased. */
  ghost predicate Erased(runs: Runs, runs': Runs, keys: seq<nat>, id: Id) {
    && (forall k :: k in runs' <==> k in runs && !(k in keys && runs[k].batch == id))
    && (forall k :: k in runs' ==> runs'[k] == runs[k])
  }

  lemma ErasedAll(runs: Runs, runs': Runs, byId: Batches, id: Id)
    requires KeysListed(runs, byId) && id in byId && Erased(runs, runs', byId[id].runKeys, id)
    ensures runs' == WithoutBatch(runs, id)
  {
  }

  lemma StartRebuilding(runs: Runs, byId: Batches, places: Places, ended: map<nat, Outcome>, id: Id)
    requires Indexed(runs, byId, places, ended, {id})
    ensures Rebuilding(WithoutBatch(runs, id), byId, places, ended, id, 0)
  {
    var runs' := WithoutBatch(runs, id);
    forall n | n in places && (places[n].id != id || places[n].index < 0)
      ensures exists k :: k in runs' && Holds(runs'[k], k, n, places[n])
    {
      var k :| k in runs && Holds(runs[k], k, n, places[n]);
      assert k in runs' && Holds(runs'[k], k, n, places[n]);
    }
  }

  ghost predicate Spans(run: Run, key: nat, n: nat) {
    key <= n < key + run.count
  }

  /** No registered run spans a number of the open slots from `upTo` on. */
  lemma NotSpanned(runs: Runs, byId: Batches, places: Places, ended: map<nat, Outcome>, id: Id, upTo: nat, index: nat, k: nat)
    requires Placed(byId, places) && places.Keys !! ended.Keys
    requires Rebuilding(runs, byId, places, ended, id, upTo)
    requires Open(byId, Slot(id, index)) && upTo <= index && k in runs
    ensures !Spans(runs[k], k, byId[id].Number(index))
  {
    if Spans(runs[k], k, byId[id].Number(index)) {
      RunHolds(runs, byId, places, ended, k, byId[id].Number(index));
    }
  }

  lemma AddedDisjoint(runs: Runs, first: nat, run: Run)
    requires Disjoint(runs, {}) && 0 < run.count
    requires forall k :: k in runs ==> 0 < runs[k].count
    requires forall n, k :: Spans(run, first, n) && k in runs ==> !Spans(runs[k], k, n)
    ensures first !in runs
    ensures Disjoint(runs[first := run], {})
  {
    assert Spans(run, first, first);
    forall k | k in runs
      ensures k != first
      ensures k < first ==> k + runs[k].count <= first
      ensures first < k ==> first + run.count <= k
    {
      assert Spans(runs[k], k, k);
      assert !Spans(runs[k], k, first);
      assert !Spans(run, first, k);
    }
  }

  /** A run of open slots from `upTo` on, registered. */
  lemma AddRun(runs: Runs, byId: Batches, places: Places, ended: map<nat, Outcome>, id: Id, upTo: nat, length: nat)
    requires Placed(byId, places) && places.Keys !! ended.Keys
    requires Rebuilding(runs, byId, places, ended, id, upTo)
    requires id in byId && 0 < length && upTo + length <= |byId[id].resolved|
    requires forall i :: upTo <= i < upTo + length ==>
                           !byId[id].resolved[i] && byId[id].Number(i) == byId[id].Number(upTo) + (i - upTo)
    ensures Rebuilding(runs[byId[id].Number(upTo) := Run(id, upTo, length, length)], byId, places, ended, id, upTo + length)
  {
    var b := byId[id];
    var first, run := b.Number(upTo), Run(id, upTo, length, length);
    assert RunOk(first, run, b, ended) by {
      ClearAll(b.resolved[upTo..upTo + length]);
    }
    forall n, k | Spans(run, first, n) && k in runs
      ensures !Spans(runs[k], k, n)
    {
      assert Open(byId, Slot(id, upTo + (n - first)));
      NotSpanned(runs, byId, places, ended, id, upTo, upTo + (n - first), k);
    }
    AddedDisjoint(runs, first, run);
    AddedCovers(runs, byId, places, id, upTo, first, run, runs[first := run]);
  }

  lemma AddedCovers(runs: Runs, byId: Batches, places: Places, id: Id, upTo: nat, first: nat, run: Run, runs': Runs)
    requires Placed(byId, places) && id in byId && first !in runs
    requires run.batch == id && run.index == upTo
    requires forall i :: upTo <= i < upTo + run.count ==> byId[id].Number(i) == first + (i - upTo)
    requires forall n :: n in places && (places[n].id != id || places[n].index < upTo) ==>
                           exists k :: k in runs && Holds(runs[k], k, n, places[n])
    requires runs' == runs[first := run]
    ensures forall n :: n in places && (places[n].id != id || places[n].index < upTo + run.count) ==>
                          exists k :: k in runs' && Holds(runs'[k], k, n, places[n])
  {
    forall n | n in places && (places[n].id != id || places[n].index < upTo + run.count)
      ensures exists k :: k in runs' && Holds(runs'[k], k, n, places[n])
    {
      if places[n].id == id && upTo <= places[n].index {
        assert NumberAt(byId, places[n]) == n;
        assert Holds(runs'[first], first, n, places[n]);
      } else {
        var k :| k in runs && Holds(runs[k], k, n, places[n]);
        assert k in runs' && Holds(runs'[k], k, n, places[n]);
      }
    }
  }

  lemma SkipResolved(runs: Runs, byId: Batches, places: Places, ended: map<nat, Outcome>, id: Id, upTo: nat, to: nat)
    requires Placed(byId, places)
    requires Rebuilding(runs, byId, places, ended, id, upTo)
    requires id in byId && upTo <= to <= |byId[id].resolved|
    requires forall i :: upTo <= i < to ==> byId[id].resolved[i]
    ensures Rebuilding(runs, byId, places, ended, id, to)
  {
    hide RunOk;
    forall n | n in places && (places[n].id != id || places[n].index < to)
      ensures exists k :: k in runs && Holds(runs[k], k, n, places[n])
    {
      assert Open(byId, places[n]);
    }
  }

  /** Where the keys of the runs registered are listed: batch `id`'s so far in
      `keys`. */
  ghost predicate KeysSoFar(runs: Runs, byId: Batches, id: Id, keys: seq<nat>) {
    forall k :: k in runs ==> if runs[k].batch == id then k in keys else runs[k].batch in byId && k in byId[runs[k].batch].runKeys
  }

  lemma CountIs(b: Batch)
    requires BatchOk(b)
    ensures |b.resolved| == b.count
  {
  }

  lemma StartKeys(runs: Runs, byId: Batches, id: Id)
    requires KeysListed(runs, byId)
    ensures KeysSoFar(WithoutBatch(runs, id), byId, id, [])
  {
  }

  lemma AddKey(runs: Runs, byId: Batches, id: Id, keys: seq<nat>, first: nat, run: Run)
    requires KeysSoFar(runs, byId, id, keys) && run.batch == id
    ensures KeysSoFar(runs[first := run], byId, id, keys + [first])
  {
  }
}
