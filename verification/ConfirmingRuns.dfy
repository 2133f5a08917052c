/** Runs of consecutive numbers: what a confirmation leaves of them, and the look-up
    of what a list of pairs names. */
module ConfirmingRuns {
  import opened Common
  import opened Flags
  import opened NumberPairs
  import opened Confirming
  import opened ConfirmingBooks

  function Lowered(runs: Runs, key: nat, count: nat): Runs
    requires key in runs
  {
    if runs[key].unresolved <= count then runs - {key}
    else runs[key := runs[key].(unresolved := runs[key].unresolved - count)]
  }

  /** A range inside one run and the slots of another run do not meet. */
  lemma OtherRunKept(runs: Runs, b: Batch, ended: map<nat, Outcome>, key: nat, k: nat, begin: nat, end: nat)
    requires key in runs && k in runs && k != key && runs[k].batch == runs[key].batch
    requires Disjoint(runs, {})
    requires RunOk(key, runs[key], b, ended) && RunOk(k, runs[k], b, ended)
    requires runs[key].index <= begin <= end <= runs[key].index + runs[key].count
    ensures var from, to := runs[k].index, runs[k].index + runs[k].count;
            && (forall i :: from <= i < to ==> Mark(b.resolved, begin, end)[i] == b.resolved[i])
            && Mark(b.resolved, begin, end)[from..to] == b.resolved[from..to]
  {
    hide Clear;
    var from, to, flags := runs[k].index, runs[k].index + runs[k].count, Mark(b.resolved, begin, end);
    forall i | from <= i < to
      ensures flags[i] == b.resolved[i]
    {
      assert b.Number(i) == k + (i - from);
    }
    assert flags[from..to] == b.resolved[from..to];
  }

  ghost predicate WithinRun(runs: Runs, byId: Batches, id: Id, key: nat, begin: nat, end: nat) {
    && id in byId && key in runs && runs[key].batch == id
    && runs[key].index <= begin <= end <= runs[key].index + runs[key].count <= |byId[id].resolved|
  }

  lemma LoweredCount(flags: seq<bool>, begin: nat, end: nat, from: nat, to: nat)
    requires from <= begin <= end <= to <= |flags|
    ensures var left := Clear(flags[from..to]) - Clear(flags[begin..end]);
            && left == Clear(Mark(flags, begin, end)[from..to])
            && (left == 0 ==> forall i :: from <= i < to ==> Mark(flags, begin, end)[i])
  {
    ClearMarkedWithin(flags, begin, end, from, to);
    var slice := Mark(flags, begin, end)[from..to];
    ClearNone(slice);
    hide Clear;
    assert forall i :: from <= i < to ==> slice[i - from] == Mark(flags, begin, end)[i];
  }

  lemma MarkedEnded(run: Run, b: Batch, ended': map<nat, Outcome>, key: nat, begin: nat, end: nat, i: nat)
    requires run.index <= begin <= end <= run.index + run.count <= |b.resolved|
    requires run.index <= i < run.index + run.count && b.Number(i) == key + (i - run.index)
    requires b.resolved[i] ==> key + (i - run.index) in ended'
    requires forall n :: n in OpenNumbers(b, begin, end) ==> n in ended'
    ensures Mark(b.resolved, begin, end)[i] ==> key + (i - run.index) in ended'
  {
    if !b.resolved[i] && begin <= i < end {
      assert b.Number(i) in OpenNumbers(b, begin, end);
    }
  }

  lemma LoweredRun(run: Run, b: Batch, ended: map<nat, Outcome>, ended': map<nat, Outcome>, key: nat, begin: nat, end: nat)
    requires RunOk(key, run, b, ended) && StillEnded(ended, ended')
    requires run.index <= begin <= end <= run.index + run.count
    requires forall n :: n in OpenNumbers(b, begin, end) ==> n in ended'
    ensures var newly := Clear(b.resolved[begin..end]);
            && newly <= run.unresolved
            && (newly < run.unresolved ==> RunOk(key, run.(unresolved := run.unresolved - newly), Marked(b, begin, end), ended'))
            && (newly == run.unresolved ==>
                  forall i :: run.index <= i < run.index + run.count ==> Marked(b, begin, end).resolved[i])
  {
    hide Clear, Mark, OpenNumbers;
    var from, to, c := run.index, run.index + run.count, Marked(b, begin, end);
    LoweredCount(b.resolved, begin, end, from, to);
    forall i | from <= i < to
      ensures c.resolved[i] ==> key + (i - from) in ended'
      ensures c.Number(i) == b.Number(i)
    {
      assert b.Number(i) == key + (i - from);
      MarkedEnded(run, b, ended', key, begin, end, i);
    }
  }

  lemma OtherRunOk(runs: Runs, b: Batch, ended: map<nat, Outcome>, ended': map<nat, Outcome>, key: nat, k: nat, begin: nat, end: nat)
    requires key in runs && k in runs && k != key && runs[k].batch == runs[key].batch
    requires Disjoint(runs, {}) && StillEnded(ended, ended')
    requires RunOk(key, runs[key], b, ended) && RunOk(k, runs[k], b, ended)
    requires runs[key].index <= begin <= end <= runs[key].index + runs[key].count
    ensures RunOk(k, runs[k], Marked(b, begin, end), ended')
  {
    hide Clear, Mark;
    OtherRunKept(runs, b, ended, key, k, begin, end);
    assert forall i :: Marked(b, begin, end).Number(i) == b.Number(i);
  }

  /** Every number still waited for is in a run that is left: a run whose count
      came to nothing holds none. */
  lemma LoweredCovers(runs: Runs, byId': Batches, places: Places, places': Places, id: Id, key: nat, count: nat)
    requires Covered(runs, places, {}) && Fewer(places, places') && Placed(byId', places')
    requires key in runs && runs[key].batch == id && id in byId'
    requires runs[key].unresolved <= count ==>
               runs[key].index + runs[key].count <= |byId'[id].resolved| &&
               forall i :: runs[key].index <= i < runs[key].index + runs[key].count ==> byId'[id].resolved[i]
    ensures Covered(Lowered(runs, key, count), places', {})
  {
    var runs' := Lowered(runs, key, count);
    forall n | n in places'
      ensures exists k :: k in runs' && Holds(runs'[k], k, n, places'[n])
    {
      assert Open(byId', places'[n]);
      var k :| k in runs && Holds(runs[k], k, n, places[n]);
      assert k in runs' && Holds(runs'[k], k, n, places'[n]);
    }
  }

  lemma LoweredDisjoint(runs: Runs, key: nat, count: nat)
    requires Disjoint(runs, {}) && key in runs
    ensures Disjoint(Lowered(runs, key, count), {})
  {
  }

  lemma LoweredExact(runs: Runs, byId: Batches, ended: map<nat, Outcome>, ended': map<nat, Outcome>,
                     id: Id, key: nat, begin: nat, end: nat)
    requires KeysListed(runs, byId) && RunsExact(runs, byId, ended, {}) && Disjoint(runs, {})
    requires WithinRun(runs, byId, id, key, begin, end) && StillEnded(ended, ended')
    requires forall n :: n in OpenNumbers(byId[id], begin, end) ==> n in ended'
    ensures var newly := Clear(byId[id].resolved[begin..end]);
            var c := Marked(byId[id], begin, end);
            && newly <= runs[key].unresolved
            && RunsExact(Lowered(runs, key, newly), byId[id := c], ended', {})
            && (newly == runs[key].unresolved ==>
                  forall i :: runs[key].index <= i < runs[key].index + runs[key].count ==> c.resolved[i])
  {
    hide Clear, Mark, OpenNumbers, Disjoint, StillEnded;
    var b, newly, c := byId[id], Clear(byId[id].resolved[begin..end]), Marked(byId[id], begin, end);
    var runs' := Lowered(runs, key, newly);
    assert RunOk(key, runs[key], b, ended);
    LoweredRun(runs[key], b, ended, ended', key, begin, end);
    forall k | k in runs' && k != key
      ensures RunOk(k, runs'[k], byId[id := c][runs'[k].batch], ended')
    {
      assert runs'[k] == runs[k] && RunOk(k, runs[k], byId[runs[k].batch], ended);
      if runs[k].batch == id {
        OtherRunOk(runs, b, ended, ended', key, k, begin, end);
      } else {
        SameRunOk(k, runs[k], byId[runs[k].batch], ended, ended');
      }
    }
  }

  lemma SameRunOk(k: nat, run: Run, b: Batch, ended: map<nat, Outcome>, ended': map<nat, Outcome>)
    requires RunOk(k, run, b, ended) && StillEnded(ended, ended')
    ensures RunOk(k, run, b, ended')
  {
  }

  /** The index once the open messages of a range inside one run have ended and
      the run's count is lowered by how many they were. */
  lemma LoweredIndexed(runs: Runs, byId: Batches, places: Places, ended: map<nat, Outcome>, ended': map<nat, Outcome>,
                       id: Id, key: nat, begin: nat, end: nat)
    requires BatchesOk(byId) && Placed(byId, places) && Indexed(runs, byId, places, ended, {})
    requires WithinRun(runs, byId, id, key, begin, end) && StillEnded(ended, ended')
    requires forall n :: n in OpenNumbers(byId[id], begin, end) ==> n in ended'
    ensures Clear(byId[id].resolved[begin..end]) <= runs[key].unresolved
    ensures Indexed(Lowered(runs, key, Clear(byId[id].resolved[begin..end])), byId[id := Marked(byId[id], begin, end)],
                    places - OpenNumbers(byId[id], begin, end), ended', {})
  {
    hide Clear, Mark, OpenNumbers, BatchesOk, RunsExact, Disjoint, Placed, Covered;
    var b, newly := byId[id], Clear(byId[id].resolved[begin..end]);
    var c, places' := Marked(b, begin, end), places - OpenNumbers(b, begin, end);
    LoweredExact(runs, byId, ended, ended', id, key, begin, end);
    LoweredDisjoint(runs, key, newly);
    MarkedPlaces(byId, places, id, begin, end);
    LoweredCovers(runs, byId[id := c], places, places', id, key, newly);
  }

  // Looking up what a CONFIRMATION's list names

  ghost predicate InSegment(s: Segment, slot: Slot) {
    s.batch == slot.id && s.begin <= slot.index < s.end
  }

  ghost predicate Found(found: seq<Segment>, slot: Slot) {
    exists j :: 0 <= j < |found| && InSegment(found[j], slot)
  }

  /** A segment lies in one run, and the list names the number of each of its
      places. */
  ghost predicate SegmentOk(s: Segment, runs: Runs, pairs: seq<U64>) {
    && s.key in runs && runs[s.key].batch == s.batch
    && runs[s.key].index <= s.begin < s.end <= runs[s.key].index + runs[s.key].count
    && forall i :: s.begin <= i < s.end ==> NamedAt(pairs, runs[s.key], s.key, i)
  }

  ghost predicate NamedAt(pairs: seq<U64>, run: Run, key: nat, i: nat) {
    i >= run.index && Names(pairs, key + (i - run.index))
  }

  /** The runs found so far for a pair: those before `next`. */
  ghost predicate Before(next: Option<nat>, k: nat) {
    next.None? || k < next.value
  }

  /** What a pair names in the runs before `next` is found. */
  ghost predicate PairFound(runs: Runs, places: Places, first: U64, count: U64, next: Option<nat>, found: seq<Segment>) {
    forall n, k :: n in places && k in runs && Holds(runs[k], k, n, places[n]) && Before(next, k) && PairNames(first, count, n) ==>
                     Found(found, places[n])
  }

  ghost predicate PairsFound(pairs: seq<U64>, places: Places, done: nat, found: seq<Segment>) {
    forall n, p :: n in places && 0 <= 2 * p && 2 * p + 1 < |pairs| && p < done && PairNames(First(pairs, p), Count(pairs, p), n) ==>
                     Found(found, places[n])
  }

  lemma FoundMore(found: seq<Segment>, more: seq<Segment>, slot: Slot)
    requires Found(found, slot)
    ensures Found(found + more, slot)
  {
    var j :| 0 <= j < |found| && InSegment(found[j], slot);
    assert (found + more)[j] == found[j];
  }

  lemma PairsFoundMore(pairs: seq<U64>, places: Places, done: nat, found: seq<Segment>, more: seq<Segment>)
    requires PairsFound(pairs, places, done, found)
    ensures PairsFound(pairs, places, done, found + more)
  {
    hide Found;
    forall n, p | n in places && 0 <= 2 * p && 2 * p + 1 < |pairs| && p < done && PairNames(First(pairs, p), Count(pairs, p), n)
      ensures Found(found + more, places[n])
    {
      FoundMore(found, more, places[n]);
    }
  }

  /** The walk of a pair begins at the last run at or before its first number,
      or, with none, at the first of all: no run before that reaches it. */
  lemma PairBegins(runs: Runs, places: Places, first: U64, count: U64, next: Option<nat>, found: seq<Segment>)
    requires Disjoint(runs, {})
    requires forall k :: k in runs && Before(next, k) ==> next.Some? && next.value in runs && next.value <= first
    ensures PairFound(runs, places, first, count, next, found)
  {
    hide Found;
    forall n, k | n in places && k in runs && Holds(runs[k], k, n, places[n]) && Before(next, k)
      ensures !PairNames(first, count, n)
    {
      assert k + runs[k].count <= next.value;
    }
  }

  lemma PairEnds(runs: Runs, places: Places, first: U64, count: U64, next: Option<nat>, found: seq<Segment>)
    requires Covered(runs, places, {}) && PairFound(runs, places, first, count, next, found)
    requires next.Some? ==> Plus(first, count) <= next.value
    ensures forall n :: n in places && PairNames(first, count, n) ==> Found(found, places[n])
  {
    hide Found;
    forall n | n in places && PairNames(first, count, n)
      ensures Found(found, places[n])
    {
      var k :| k in runs && Holds(runs[k], k, n, places[n]);
      assert Before(next, k);
    }
  }

  /** One run of the walk, its part that the pair names added. */
  lemma PairStep(runs: Runs, places: Places, first: U64, count: U64, at: nat, next: Option<nat>, found: seq<Segment>, more: seq<Segment>)
    requires PairFound(runs, places, first, count, Some(at), found) && at in runs
    requires forall k :: k in runs && Before(next, k) ==> k <= at
    requires forall n :: n in places && Holds(runs[at], at, n, places[n]) && PairNames(first, count, n) ==> Found(more, places[n])
    ensures PairFound(runs, places, first, count, next, found + more)
  {
    hide Found, Holds;
    forall n, k | n in places && k in runs && Holds(runs[k], k, n, places[n]) && Before(next, k) && PairNames(first, count, n)
      ensures Found(found + more, places[n])
    {
      if k < at {
        assert Before(Some(at), k);
        FoundMore(found, more, places[n]);
      } else {
        FoundLater(found, more, places[n]);
      }
    }
  }

  lemma FoundLater(found: seq<Segment>, more: seq<Segment>, slot: Slot)
    requires Found(more, slot)
    ensures Found(found + more, slot)
  {
    var j :| 0 <= j < |more| && InSegment(more[j], slot);
    assert (found + more)[|found| + j] == more[j];
  }

  lemma PairDone(pairs: seq<U64>, places: Places, p: nat, found: seq<Segment>)
    requires 2 * p + 1 < |pairs| && PairsFound(pairs, places, p, found)
    requires forall n :: n in places && PairNames(First(pairs, p), Count(pairs, p), n) ==> Found(found, places[n])
    ensures PairsFound(pairs, places, p + 1, found)
  {
    hide Found, PairNames;
  }

  // The keys of a sorted map

  lemma {:induction false} GreatestExists(keys: set<nat>) returns (top: nat)
    requires keys != {}
    ensures top in keys && forall k :: k in keys ==> k <= top
  {
    var one :| one in keys;
    var rest := keys - {one};
    top := one;
    if rest != {} {
      var other := GreatestExists(rest);
      top := if one < other then other else one;
    }
    forall k | k in keys
      ensures k <= top
    {
      assert k == one || k in rest;
    }
  }

  lemma {:induction false} LeastExists(keys: set<nat>) returns (bottom: nat)
    requires keys != {}
    ensures bottom in keys && forall k :: k in keys ==> bottom <= k
  {
    var one :| one in keys;
    var rest := keys - {one};
    bottom := one;
    if rest != {} {
      var other := LeastExists(rest);
      bottom := if other < one then other else one;
    }
    forall k | k in keys
      ensures bottom <= k
    {
      assert k == one || k in rest;
    }
  }

  /** The last key at or before `n`. */
  method LastAtMost(runs: Runs, n: nat) returns (key: Option<nat>)
    ensures key.None? ==> forall k :: k in runs ==> n < k
    ensures key.Some? ==> key.value in runs && key.value <= n && forall k :: k in runs && k <= n ==> k <= key.value
  {
    var keys := set k | k in runs && k <= n;
    assert forall k :: k in runs && k <= n ==> k in keys;
    if keys == {} {
      return None;
    }
    ghost var some := GreatestExists(keys);
    var top :| top in keys && forall k :: k in keys ==> k <= top;
    key := Some(top);
  }

  /** The first key after `n`. */
  method FirstAfter(runs: Runs, n: nat) returns (key: Option<nat>)
    ensures key.None? ==> forall k :: k in runs ==> k <= n
    ensures key.Some? ==> key.value in runs && n < key.value && forall k :: k in runs && n < k ==> key.value <= k
  {
    var keys := set k | k in runs && n < k;
    assert forall k :: k in runs && n < k ==> k in keys;
    if keys == {} {
      return None;
    }
    ghost var some := LeastExists(keys);
    var bottom :| bottom in keys && forall k :: k in keys ==> bottom <= k;
    key := Some(bottom);
  }

  /** The part of a run that a pair names, if any. */
  function Part(run: Run, key: nat, first: U64, past: U64): seq<Segment> {
    var from := if first < key then key else first;
    var to := if past < key + run.count then past else key + run.count;
    if from < to then [Segment(run.batch, key, run.index + (from - key), run.index + (to - key))] else []
  }

  lemma PartOk(runs: Runs, pairs: seq<U64>, key: nat, p: nat)
    requires 2 * p + 1 < |pairs| && key in runs
    ensures var part := Part(runs[key], key, First(pairs, p), Plus(First(pairs, p), Count(pairs, p)));
            forall j :: 0 <= j < |part| ==> SegmentOk(part[j], runs, pairs)
  {
    var first, count := First(pairs, p), Count(pairs, p);
    var part := Part(runs[key], key, first, Plus(first, count));
    if part != [] {
      forall i | part[0].begin <= i < part[0].end
        ensures NamedAt(pairs, runs[key], key, i)
      {
        assert PairNames(first, count, key + (i - runs[key].index));
      }
    }
  }

  lemma PartFinds(run: Run, key: nat, first: U64, count: U64, n: nat, slot: Slot)
    requires Holds(run, key, n, slot) && PairNames(first, count, n)
    ensures Found(Part(run, key, first, Plus(first, count)), slot)
  {
    assert InSegment(Part(run, key, first, Plus(first, count))[0], slot);
  }

  lemma NothingFound(pairs: seq<U64>, places: Places)
    ensures PairsFound(pairs, places, 0, [])
  {
  }

  lemma EmptyPair(first: U64, count: U64)
    requires Plus(first, count) <= first
    ensures forall n :: !PairNames(first, count, n)
  {
  }

  lemma AllFound(pairs: seq<U64>, places: Places, done: nat, found: seq<Segment>)
    requires PairsFound(pairs, places, done, found) && |pairs| <= 2 * done + 1
    ensures forall n :: n in places && Names(pairs, n) ==> Found(found, places[n])
  {
    hide Found;
  }
}
