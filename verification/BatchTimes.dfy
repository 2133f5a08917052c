/** When messages that wait in batches are handed on, over every history of sends, timers
    and idle connections. */
module BatchTimes {
  import opened Common
  import opened BatchIndex

  /** The batches open and the messages handed on, in order. */
  datatype Queue = Queue(open: map<nat, Batch>, gone: seq<Message>)

  /** What happens: a message sent, to go by a time and with an idle connection where it
      waits for these; the timer; a connection with nothing to write; every batch let go. */
  datatype Event = Sent(message: Message, limit: Option<Time>, idle: bool) | Fired(now: Time) | Idle | LetGo

  function MessageAt(batch: Batch, i: nat): Message
    requires i < |batch.records|
  {
    Message(batch.group, batch.records[i].id, batch.records[i].body)
  }

  /** A batch with more messages, or the same. */
  ghost predicate Grown(batch: Batch, now: Batch) {
    now == batch.(records := now.records, bytes := now.bytes) && batch.records <= now.records
  }

  /** Each batch is still open, or what it held has been handed on. */
  ghost predicate Onward(q: Queue, q': Queue) {
    && q.gone <= q'.gone
    && forall b :: b in q.open ==>
         if b in q'.open then Grown(q.open[b], q'.open[b])
         else forall i :: 0 <= i < |q.open[b].records| ==> MessageAt(q.open[b], i) in q'.gone
  }

  ghost predicate HeldAt(q: Queue, b: nat, i: nat, message: Message, limit: Option<Time>, idle: bool) {
    && b in q.open && i < |q.open[b].records| && MessageAt(q.open[b], i) == message
    && (limit.Some? ==> q.open[b].due.Some? && q.open[b].due.value <= limit.value)
    && (idle ==> q.open[b].waitsForIdle)
  }

  /** Handed on, or in a batch that goes by a time, and with an idle connection. */
  ghost predicate OnItsWay(q: Queue, message: Message, limit: Option<Time>, idle: bool) {
    message in q.gone || exists b: nat, i: nat :: HeldAt(q, b, i, message, limit, idle)
  }

  ghost predicate Passed(q: Queue, e: Event, q': Queue) {
    && Onward(q, q')
    && match e
       case Sent(message, limit, idle) => OnItsWay(q', message, limit, idle)
       case Fired(now) => forall b :: b in q'.open && q'.open[b].due.Some? ==> now < q'.open[b].due.value
       case Idle => forall b :: b in q'.open ==> !q'.open[b].waitsForIdle
       case LetGo => q'.open == map[]
  }

  ghost predicate History(queues: seq<Queue>, events: seq<Event>) {
    && |queues| == |events| + 1
    && forall i :: 0 <= i < |events| ==> Passed(queues[i], events[i], queues[i + 1])
  }

  lemma StaysOnItsWay(q: Queue, q': Queue, message: Message, limit: Option<Time>, idle: bool)
    requires Onward(q, q') && OnItsWay(q, message, limit, idle)
    ensures OnItsWay(q', message, limit, idle)
  {
    if message !in q.gone {
      var b: nat, i: nat :| HeldAt(q, b, i, message, limit, idle);
      if b in q'.open {
        assert HeldAt(q', b, i, message, limit, idle);
      } else {
        assert MessageAt(q.open[b], i) in q'.gone;
      }
    }
  }

  lemma {:induction false} StaysUntil(queues: seq<Queue>, events: seq<Event>, s: nat, j: nat)
    requires History(queues, events) && s < j < |queues| && events[s].Sent?
    ensures OnItsWay(queues[j], events[s].message, events[s].limit, events[s].idle)
    decreases j
  {
    hide Onward, OnItsWay;
    assert Passed(queues[j - 1], events[j - 1], queues[j]);
    if s < j - 1 {
      StaysUntil(queues, events, s, j - 1);
      StaysOnItsWay(queues[j - 1], queues[j], events[s].message, events[s].limit, events[s].idle);
    }
  }

  /** In every history: a message sent to go by a time has been handed on once the timer
      fired at that time or later, whatever came between. */
  lemma GoneInTime(queues: seq<Queue>, events: seq<Event>, s: nat, j: nat)
    requires History(queues, events) && s < j < |events| && events[s].Sent? && events[s].limit.Some?
    requires events[j].Fired? && events[s].limit.value <= events[j].now
    ensures events[s].message in queues[j + 1].gone
  {
    hide Onward;
    StaysUntil(queues, events, s, j + 1);
    assert Passed(queues[j], events[j], queues[j + 1]);
  }

  /** And one that waits for a connection once one has nothing left to write. */
  lemma GoneWhenIdle(queues: seq<Queue>, events: seq<Event>, s: nat, j: nat)
    requires History(queues, events) && s < j < |events| && events[s].Sent? && events[s].idle && events[j].Idle?
    ensures events[s].message in queues[j + 1].gone
  {
    hide Onward;
    StaysUntil(queues, events, s, j + 1);
    assert Passed(queues[j], events[j], queues[j + 1]);
  }

  // Batches that go

  lemma {:induction false} FlushedHas(batches: map<nat, Batch>, b: nat, i: nat)
    requires b in batches && i < |batches[b].records|
    ensures MessageAt(batches[b], i) in Flushed(batches)
    decreases |batches|
  {
    var least := Least(batches.Keys);
    Smaller(batches, least);
    var first := Messages(batches[least].group, batches[least].records);
    if b == least {
      assert first[i] == MessageAt(batches[b], i);
    } else {
      FlushedHas(batches - {least}, b, i);
    }
  }

  /** Some batches go, in the order they began. */
  lemma FlushOnward(q: Queue, keys: set<nat>)
    ensures Onward(q, Queue(q.open - keys, q.gone + Flushed(Restricted(q.open, keys))))
  {
    hide Flushed;
    var going := Restricted(q.open, keys);
    forall b, i | b in q.open && b in keys && 0 <= i < |q.open[b].records| ensures MessageAt(q.open[b], i) in Flushed(going) {
      FlushedHas(going, b, i);
    }
  }

  lemma OnwardTrans(q: Queue, q': Queue, q'': Queue)
    requires Onward(q, q') && Onward(q', q'') && forall b :: b in q.open && b in q''.open ==> b in q'.open
    ensures Onward(q, q'')
  {
    forall b, i | b in q.open && b !in q''.open && 0 <= i < |q.open[b].records| ensures MessageAt(q.open[b], i) in q''.gone {
      if b in q'.open {
        assert MessageAt(q'.open[b], i) == MessageAt(q.open[b], i);
      }
    }
  }
}
