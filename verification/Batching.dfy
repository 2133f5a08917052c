/** The client's batching as a queue of open batches and the messages handed on:
    what each message sent, timer and idle connection does to it, and that the
    messages of every group leave in the order they were sent. */
module Batching {
  import opened NumberPairs
  import opened BatchFrames
  import opened BatchIndex
  import opened BatchTimes
  import opened Common

  const MAX_MESSAGE_SIZE: nat := 128 * 1024 * 1024
  const MAX_KEY_SIZE: nat := 256
  const MAX_TICKS: nat := 1_000_000_000 * 1_000_000_000  // 1e9 seconds, in nanoseconds

  /** A frame handed on, with what it was made by. */
  datatype Framed = Framed(out: Handed, group: Group, delivery: Option<Delivery>, header: nat)

  /** Messages handed on together: a batch that went, or one message by itself, and the
      frames they went as. */
  datatype Gone = Gone(group: Group, records: seq<Record>, delivery: Option<Delivery>, header: nat, handed: seq<Handed>)

  /** The messages handed on, as they were sent. */
  function GoneBy(went: seq<Gone>): seq<Message> {
    if went == [] then []
    else
      var last := went[|went| - 1];
      GoneBy(went[..|went| - 1]) + Messages(last.group, last.records)
  }

  function FramesBy(went: seq<Gone>): seq<Framed> {
    if went == [] then []
    else
      var last := went[|went| - 1];
      FramesBy(went[..|went| - 1]) + FramedAll(last.handed, last.group, last.delivery, last.header)
  }

  predicate Confirms(gone: Gone) {
    gone.delivery.Some? && gone.delivery.value.confirm
  }

  /** What arrives of the messages that went: of confirmed ones each with its body or, given
      up on, not at all; of others each with its body, but for one that a frame cut down to
      it begins with, which has nothing in it. */
  ghost predicate ArriveOk(gone: Gone) {
    var maxBytes := if gone.delivery.Some? then gone.delivery.value.maxBytes else 0;
    && |Arrivals(gone.handed)| == |gone.records|
    && forall i :: 0 <= i < |gone.records| ==>
         ArrivesAs(Arrivals(gone.handed)[i], Confirms(gone), gone.records[i],
                   i in Starts(gone.handed) && LosesBody(gone.header, maxBytes, gone.records[i..]))
  }

  ghost predicate WentOk(went: seq<Gone>) {
    forall i :: 0 <= i < |went| ==> ArriveOk(went[i])
  }

  function ArrivalsBy(frames: seq<Framed>): seq<Arrival> {
    if frames == [] then [] else ArrivalsBy(frames[..|frames| - 1]) + ArrivalsOf(frames[|frames| - 1].out)
  }

  /** What arrives of frames is, one for one and in order, what was handed on: with its
      body, with nothing in it, or not at all; and always with its body where no batch is
      confirmed and each message goes by itself. */
  lemma {:induction false} ArriveInOrder(went: seq<Gone>)
    requires WentOk(went)
    ensures OneForOne(ArrivalsBy(FramesBy(went)), GoneBy(went))
    ensures (forall i :: 0 <= i < |went| ==> !Confirms(went[i]) && |went[i].records| == 1) ==>
      WithBodies(ArrivalsBy(FramesBy(went)), GoneBy(went))
  {
    hide ArriveOk, Arrivals, Confirms, FramedAll, Messages, OneForOne, WithBodies;
    NothingArrives();
    if went != [] {
      var less, last := went[..|went| - 1], went[|went| - 1];
      ArriveInOrder(less);
      var frames := FramedAll(last.handed, last.group, last.delivery, last.header);
      ArrivalsByMore(FramesBy(less), frames);
      ArrivalsByAll(last.handed, last.group, last.delivery, last.header);
      OneArrives(last);
      OneForOneMore(ArrivalsBy(FramesBy(less)), GoneBy(less), Arrivals(last.handed), Messages(last.group, last.records));
    }
  }

  /** Each message handed on arrives in its turn, with its body, with nothing in it, or not at
      all. */
  ghost predicate OneForOne(arrivals: seq<Arrival>, gone: seq<Message>) {
    && |arrivals| == |gone|
    && forall i :: 0 <= i < |gone| ==> arrivals[i].0 == gone[i].id && arrivals[i].1 in {Some(gone[i].body), Some([]), None}
  }

  ghost predicate WithBodies(arrivals: seq<Arrival>, gone: seq<Message>) {
    |arrivals| == |gone| && forall i :: 0 <= i < |gone| ==> arrivals[i].1 == Some(gone[i].body)
  }

  lemma NothingArrives()
    ensures OneForOne([], []) && WithBodies([], [])
  {
  }

  lemma OneForOneMore(arrivals: seq<Arrival>, gone: seq<Message>, more: seq<Arrival>, moreGone: seq<Message>)
    ensures OneForOne(arrivals, gone) && OneForOne(more, moreGone) ==> OneForOne(arrivals + more, gone + moreGone)
    ensures WithBodies(arrivals, gone) && WithBodies(more, moreGone) ==> WithBodies(arrivals + more, gone + moreGone)
  {
  }

  lemma {:induction false} ArrivalsByMore(frames: seq<Framed>, more: seq<Framed>)
    ensures ArrivalsBy(frames + more) == ArrivalsBy(frames) + ArrivalsBy(more)
  {
    hide ArrivalsOf;
    if more == [] {
      assert frames + more == frames;
    } else {
      assert (frames + more)[..|frames| + |more| - 1] == frames + more[..|more| - 1];
      ArrivalsByMore(frames, more[..|more| - 1]);
      ThreeJoined(ArrivalsBy(frames), ArrivalsBy(more[..|more| - 1]), ArrivalsOf(more[|more| - 1].out));
    }
  }

  lemma ThreeJoined(left: seq<Arrival>, middle: seq<Arrival>, right: seq<Arrival>)
    ensures (left + middle) + right == left + (middle + right)
  {
  }

  lemma {:induction false} ArrivalsByAll(handed: seq<Handed>, group: Group, delivery: Option<Delivery>, header: nat)
    ensures ArrivalsBy(FramedAll(handed, group, delivery, header)) == Arrivals(handed)
  {
    hide ArrivalsOf;
    if handed != [] {
      var last := |handed| - 1;
      assert FramedAll(handed, group, delivery, header)[..last] == FramedAll(handed[..last], group, delivery, header);
      ArrivalsByAll(handed[..last], group, delivery, header);
    }
  }

  lemma OneArrives(gone: Gone)
    requires ArriveOk(gone)
    ensures OneForOne(Arrivals(gone.handed), Messages(gone.group, gone.records))
    ensures !Confirms(gone) && |gone.records| == 1 ==> WithBodies(Arrivals(gone.handed), Messages(gone.group, gone.records))
  {
    hide Arrivals, Starts, SizeOf;
    assert |gone.records| == 1 ==> |gone.records[0..]| == 1;
  }

  datatype Settings = Settings(byType: map<nat, Delivery>, byKey: map<nat, map<string, Delivery>>)

  function DeliveryFor(settings: Settings, group: Group): Option<Delivery> {
    if group.key.Some? && group.messageType in settings.byKey && group.key.value in settings.byKey[group.messageType]
    then Some(settings.byKey[group.messageType][group.key.value])
    else if group.messageType in settings.byType then Some(settings.byType[group.messageType])
    else None
  }

  /** What a delivery must be to be set. */
  predicate DeliveryOk(messageType: nat, delivery: Delivery) {
    && messageType > MAX_META_TYPE
    && 1 <= delivery.maxRecords <= MAX_BATCH_RECORDS && 1 <= delivery.maxBytes <= MAX_MESSAGE_SIZE
    && delivery.maxDelay <= MAX_TICKS && (delivery.confirm ==> 0 < delivery.retryAfter <= MAX_TICKS)
    && (delivery.timeout.Some? ==> delivery.timeout.value > if delivery.batch then delivery.maxDelay else 0)
  }

  predicate KeyFits(key: Option<string>) {
    key.Some? ==> |key.value| <= MAX_KEY_SIZE
  }

  /** A frame of at most as many messages as set, its envelope within the bytes set
      unless of one. */
  ghost predicate FrameOk(frame: Framed) {
    frame.delivery.Some? ==>
      && DeliveryOk(frame.group.messageType, frame.delivery.value)
      && Taking(frame.out) <= frame.delivery.value.maxRecords
      && (frame.out.Envelope? && Taking(frame.out) > 1 ==>
            EnvelopeSize(frame.header, frame.out.bodies, frame.out.pairs) <= frame.delivery.value.maxBytes)
  }

  ghost predicate FramesOk(frames: seq<Framed>) {
    forall i :: 0 <= i < |frames| ==> FrameOk(frames[i])
  }

  ghost predicate SettingsOk(settings: Settings) {
    forall g :: DeliveryFor(settings, g).Some? ==> DeliveryOk(g.messageType, DeliveryFor(settings, g).value)
  }

  /** A batch: by its group's delivery, waiting for a connection exactly when it
      has no delay, and due by its delay or its deadline. */
  ghost predicate BatchOk(batch: Batch, settings: Settings) {
    var delivery := batch.delivery;
    && DeliveryFor(settings, batch.group) == Some(delivery) && delivery.batch
    && |batch.records| <= delivery.maxRecords && batch.bytes == BodyBytes(batch.records)
    && batch.waitsForIdle == (delivery.maxDelay == 0)
    && (delivery.maxDelay == 0 ==> batch.due == batch.deadline) && (delivery.maxDelay > 0 ==> batch.due.Some?)
  }

  ghost predicate BatchesOk(live: map<nat, Batch>, settings: Settings, began: nat) {
    forall b :: b in live ==> b <= began && BatchOk(live[b], settings)
  }

  /** A batch begun at a time is due a delay later, or a timeout later with no delay. */
  ghost predicate DueFrom(batch: Batch, at: Time) {
    var delivery := batch.delivery;
    && batch.deadline == (if delivery.timeout.Some? then Some(at + delivery.timeout.value) else None)
    && batch.due == (if delivery.maxDelay > 0 then Some(at + delivery.maxDelay) else batch.deadline)
  }

  ghost predicate TimesOk(live: map<nat, Batch>, at: map<nat, Time>, clock: Time) {
    forall b :: b in live ==> b in at && at[b] <= clock && DueFrom(live[b], at[b])
  }

  /** Fewer messages than set, at least one, and fewer bytes. */
  predicate HasRoom(batch: Batch) {
    0 < |batch.records| < batch.delivery.maxRecords && batch.bytes < batch.delivery.maxBytes
  }

  ghost predicate RoomBut(live: map<nat, Batch>, but: set<nat>) {
    forall b :: b in live && b !in but ==> HasRoom(live[b])
  }

  lemma GoneByMore(went: seq<Gone>, gone: Gone)
    ensures GoneBy(went + [gone]) == GoneBy(went) + Messages(gone.group, gone.records)
    ensures FramesBy(went + [gone]) == FramesBy(went) + FramedAll(gone.handed, gone.group, gone.delivery, gone.header)
  {
    assert (went + [gone])[..|went|] == went;
  }

  /** A batch's frames, with what they were made by. */
  function FramedAll(handed: seq<Handed>, group: Group, delivery: Option<Delivery>, header: nat): seq<Framed> {
    seq(|handed|, i requires 0 <= i < |handed| => Framed(handed[i], group, delivery, header))
  }

  lemma {:induction false} AllFramesOk(handed: seq<Handed>, records: seq<Record>, numbers: seq<U64>, begin: nat,
                                       group: Group, delivery: Delivery, header: nat)
    requires |numbers| == |records| <= delivery.maxRecords && begin <= |records|
    requires DeliveryOk(group.messageType, delivery)
    requires HandedSoFar(header, delivery.maxBytes, delivery.confirm, handed, records, numbers, begin)
    ensures FramesOk(FramedAll(handed, group, Some(delivery), header))
    decreases handed
  {
    hide EnvelopeSize, Encode, CutToOne, CutAsNeeded, DeliveryOk;
    if handed != [] {
      var last := |handed| - 1;
      var before := begin - Taking(handed[last]);
      AllFramesOk(handed[..last], records, numbers, before, group, delivery, header);
      var frames := FramedAll(handed, group, Some(delivery), header);
      forall i | 0 <= i < |frames| ensures FrameOk(frames[i]) {
        if i < last {
          assert frames[i] == FramedAll(handed[..last], group, Some(delivery), header)[i];
        }
      }
    }
  }

  /** Whether a message without a batch to join is sent by itself. */
  predicate GoesAlone(record: Record, delivery: Delivery, idleOrNone: bool) {
    !delivery.batch || |record.body| >= delivery.maxBytes || (delivery.maxDelay == 0 && idleOrNone)
  }

  // What sending a message comes to

  ghost function Waiting(open: map<nat, Batch>): set<nat> {
    set b | b in open && open[b].waitsForIdle
  }

  /** A batch gone on its own account, with those that wait for a connection. */
  ghost function Closed(q: Queue, b: nat): Queue {
    var going := Waiting(q.open) + {b};
    Queue(q.open - going, q.gone + Flushed(Restricted(q.open, going)))
  }

  function Joined(batch: Batch, record: Record): Batch {
    batch.(records := batch.records + [record], bytes := batch.bytes + |record.body|)
  }

  predicate IsFull(batch: Batch) {
    |batch.records| >= batch.delivery.maxRecords || batch.bytes >= batch.delivery.maxBytes
  }

  predicate RoomFor(batch: Batch, record: Record, delivery: Delivery) {
    |batch.records| < delivery.maxRecords && batch.bytes + |record.body| <= delivery.maxBytes
  }

  /** A message in a batch, which goes once it is full. */
  ghost function JoinedTo(q: Queue, b: nat, record: Record): Queue
    requires b in q.open
  {
    var now := q.(open := q.open[b := Joined(q.open[b], record)]);
    if IsFull(now.open[b]) then Closed(now, b) else now
  }

  ghost function SentAlone(q: Queue, group: Group, record: Record): Queue {
    Queue(map[], q.gone + Flushed(q.open) + [Message(group, record.id, record.body)])
  }

  /** A message submitted, `found` being its group's open batch and `next` the number of
      the next one: into that batch where it has room, else, once that has gone, alone
      after every batch or into a batch opened for it. */
  ghost function Submitted(q: Queue, found: Option<nat>, next: nat, record: Record, group: Group, delivery: Delivery, now: Time,
                           idleOrNone: bool): Queue
  {
    if found.Some? && found.value in q.open && RoomFor(q.open[found.value], record, delivery) then
      JoinedTo(q, found.value, record)
    else
      var left := if found.Some? then Closed(q, found.value) else q;
      if GoesAlone(record, delivery, idleOrNone) then SentAlone(left, group, record)
      else JoinedTo(left.(open := left.open[next := Opened(group, delivery, now)]), next, record)
  }

  /** A message is the last of an open batch exactly if, with those it joins, it leaves
      room for another. */
  ghost predicate JoinsUnlessFull(held: seq<Record>, record: Record, group: Group, delivery: Delivery, open: map<nat, Batch>) {
    if |held| + 1 < delivery.maxRecords && BodyBytes(held) + |record.body| < delivery.maxBytes
    then exists b :: b in open && open[b].group == group && open[b].records == held + [record]
    else forall b :: b in open ==> open[b].group != group
  }

  lemma JoinedUnlessFull(q: Queue, b: nat, record: Record)
    requires b in q.open && q.open[b].bytes == BodyBytes(q.open[b].records)
    requires forall c :: c in q.open && q.open[c].group == q.open[b].group ==> c == b
    ensures JoinsUnlessFull(q.open[b].records, record, q.open[b].group, q.open[b].delivery, JoinedTo(q, b, record).open)
  {
    hide Flushed, BodyBytes;
    var q' := JoinedTo(q, b, record);
    if !IsFull(Joined(q.open[b], record)) {
      assert b in q'.open && q'.open[b].records == q.open[b].records + [record];
    }
  }

  lemma SubmittedJoins(q: Queue, found: Option<nat>, next: nat, record: Record, group: Group, delivery: Delivery, now: Time)
    requires next !in q.open && (found.None? ==> forall c :: c in q.open ==> q.open[c].group != group)
    requires found.Some? ==>
      && found.value in q.open && q.open[found.value].group == group && q.open[found.value].delivery == delivery
      && q.open[found.value].bytes == BodyBytes(q.open[found.value].records)
      && forall c :: c in q.open && q.open[c].group == group ==> c == found.value
    ensures var held := if found.Some? && RoomFor(q.open[found.value], record, delivery) then q.open[found.value].records else [];
            forall idleOrNone :: (found.Some? && RoomFor(q.open[found.value], record, delivery)) || !GoesAlone(record, delivery, idleOrNone) ==>
              JoinsUnlessFull(held, record, group, delivery,
                              Submitted(q, found, next, record, group, delivery, now, idleOrNone).open)
  {
    hide Flushed, BodyBytes, JoinedTo, JoinsUnlessFull, RoomFor, GoesAlone;
    if found.Some? && RoomFor(q.open[found.value], record, delivery) {
      JoinedUnlessFull(q, found.value, record);
    } else {
      var left := if found.Some? then Closed(q, found.value) else q;
      var begun := left.(open := left.open[next := Opened(group, delivery, now)]);
      NoBodyBytes();
      JoinedUnlessFull(begun, next, record);
    }
  }

  lemma AloneIs(record: Record, delivery: Delivery, idleOrNone: bool, now: Time)
    ensures GoesAlone(record, delivery, idleOrNone) <==>
      !delivery.batch || |record.body| >= delivery.maxBytes || (delivery.maxDelay == 0 && idleOrNone)
    ensures Limit(delivery, now) == if delivery.maxDelay > 0 then Some(now + delivery.maxDelay)
                                    else if delivery.timeout.Some? then Some(now + delivery.timeout.value) else None
  {
  }

  lemma OpenedOk(live: map<nat, Batch>, settings: Settings, began: nat, at: map<nat, Time>, group: Group, delivery: Delivery, now: Time)
    requires BatchesOk(live, settings, began) && TimesOk(live, at, now)
    requires DeliveryFor(settings, group) == Some(delivery) && delivery.batch
    ensures began + 1 !in live
    ensures var live' := live[began + 1 := Opened(group, delivery, now)];
            BatchesOk(live', settings, began + 1) && TimesOk(live', at[began + 1 := now], now)
    ensures Opened(group, delivery, now).records == [] && Opened(group, delivery, now).group == group
  {
    hide DeliveryFor;
  }

  lemma JoinedOk(live: map<nat, Batch>, settings: Settings, began: nat, at: map<nat, Time>, clock: Time, b: nat, record: Record)
    requires BatchesOk(live, settings, began) && TimesOk(live, at, clock) && b in live
    requires |live[b].records| < live[b].delivery.maxRecords
    ensures BatchesOk(live[b := Joined(live[b], record)], settings, began)
    ensures TimesOk(live[b := Joined(live[b], record)], at, clock)
  {
    hide DeliveryFor, DueFrom;
    assert BatchOk(live[b], settings);
    BodyBytesMore(live[b].records, record);
    assert DueFrom(Joined(live[b], record), at[b]) by { JoinedDue(live[b], record, at[b]); }
  }

  lemma JoinedDue(batch: Batch, record: Record, at: Time)
    requires DueFrom(batch, at)
    ensures DueFrom(Joined(batch, record), at)
  {
  }

  lemma OpenedFits(group: Group, delivery: Delivery, now: Time)
    ensures Opened(group, delivery, now).records == [] && Opened(group, delivery, now).group == group
    ensures Opened(group, delivery, now).delivery == delivery
  {
  }

  /** A message that joins a batch is the last of it, or the batch was full and went. */
  lemma JoinedOrGone(q: Queue, b: nat, record: Record)
    requires b in q.open
    ensures var r := JoinedTo(q, b, record);
            var message := Message(q.open[b].group, record.id, record.body);
            && q.gone <= r.gone
            && if IsFull(Joined(q.open[b], record)) then b !in r.open && message in r.gone[|q.gone|..]
               else r.gone == q.gone && b in r.open && r.open[b] == Joined(q.open[b], record)
    ensures forall c :: c in q.open && c != b && !q.open[c].waitsForIdle ==>
      c in JoinedTo(q, b, record).open && JoinedTo(q, b, record).open[c] == q.open[c]
  {
    hide Flushed;
    var now := q.open[b := Joined(q.open[b], record)];
    if IsFull(now[b]) {
      var going := Restricted(now, Waiting(now) + {b});
      FlushedHas(going, b, |q.open[b].records|);
      assert (q.gone + Flushed(going))[|q.gone|..] == Flushed(going);
    }
  }

  /** When a plain event sent now goes at the latest, by what is set for it. */
  ghost function SetLimit(settings: Settings, group: Group, now: Time): Option<Time> {
    var delivery := DeliveryFor(settings, group);
    if delivery.None? then None
    else if delivery.value.maxDelay > 0 then Some(now + delivery.value.maxDelay)
    else if delivery.value.timeout.Some? then Some(now + delivery.value.timeout.value) else None
  }

  ghost predicate SetIdle(settings: Settings, group: Group) {
    DeliveryFor(settings, group).Some? && DeliveryFor(settings, group).value.maxDelay == 0
  }

  /** When a message sent now goes at the latest. */
  function Limit(delivery: Delivery, now: Time): Option<Time> {
    if delivery.maxDelay > 0 then Some(now + delivery.maxDelay)
    else if delivery.timeout.Some? then Some(now + delivery.timeout.value) else None
  }

  /** A batch goes no later than that of a message sent now. */
  ghost predicate GoesSoon(batch: Batch, delivery: Delivery, now: Time) {
    && (Limit(delivery, now).Some? ==> batch.due.Some? && batch.due.value <= Limit(delivery, now).value)
    && (delivery.maxDelay == 0 ==> batch.waitsForIdle)
  }

  lemma JoinedOnward(q: Queue, b: nat, record: Record, delivery: Delivery, now: Time)
    requires b in q.open && GoesSoon(q.open[b], delivery, now)
    ensures var q' := JoinedTo(q, b, record);
            && Onward(q, q') && (forall c :: c in q'.open ==> c in q.open)
            && OnItsWay(q', Message(q.open[b].group, record.id, record.body), Limit(delivery, now), delivery.maxDelay == 0)
  {
    hide Flushed, Waiting;
    var batch := Joined(q.open[b], record);
    var q' := q.(open := q.open[b := batch]);
    var message, last := Message(q.open[b].group, record.id, record.body), |q.open[b].records|;
    assert MessageAt(batch, last) == message;
    assert Onward(q, q') && HeldAt(q', b, last, message, Limit(delivery, now), delivery.maxDelay == 0);
    if IsFull(batch) {
      FlushOnward(q', Waiting(q'.open) + {b});
      OnwardTrans(q, q', Closed(q', b));
      StaysOnItsWay(q', Closed(q', b), message, Limit(delivery, now), delivery.maxDelay == 0);
    }
  }

  lemma AllOnward(q: Queue)
    ensures Onward(q, Queue(map[], q.gone + Flushed(q.open)))
  {
    hide Flushed;
    FlushOnward(q, q.open.Keys);
    assert Restricted(q.open, q.open.Keys) == q.open && q.open - q.open.Keys == map[];
  }

  lemma AloneOnward(q: Queue, group: Group, record: Record)
    ensures Onward(q, SentAlone(q, group, record)) && Message(group, record.id, record.body) in SentAlone(q, group, record).gone
  {
    hide Flushed;
    AllOnward(q);
  }

  /** A message submitted is handed on, or in a batch that goes no later than it must. */
  lemma SubmittedOnward(q: Queue, found: Option<nat>, next: nat, record: Record, group: Group, delivery: Delivery, now: Time,
                        idleOrNone: bool)
    requires next !in q.open && (found.Some? ==> found.value in q.open && q.open[found.value].group == group)
    requires found.Some? ==> GoesSoon(q.open[found.value], delivery, now)
    ensures var q' := Submitted(q, found, next, record, group, delivery, now, idleOrNone);
            Passed(q, Sent(Message(group, record.id, record.body), Limit(delivery, now), delivery.maxDelay == 0), q')
  {
    hide Flushed, JoinedTo, SentAlone, Onward, OnItsWay, GoesSoon, GoesAlone, RoomFor, Waiting, Opened, Limit;
    if found.Some? && RoomFor(q.open[found.value], record, delivery) {
      JoinedOnward(q, found.value, record, delivery, now);
    } else {
      var left := if found.Some? then Closed(q, found.value) else q;
      assert Onward(q, left) by {
        OnwardNone(q);
        if found.Some? { FlushOnward(q, Waiting(q.open) + {found.value}); }
      }
      if GoesAlone(record, delivery, idleOrNone) {
        AloneOnward(left, group, record);
        OnwardEmpty(q, left, group, record);
        GoneIsOnItsWay(SentAlone(left, group, record), Message(group, record.id, record.body), Limit(delivery, now), delivery.maxDelay == 0);
      } else {
        var begun := left.(open := left.open[next := Opened(group, delivery, now)]);
        OpenedSoon(group, delivery, now);
        OpenedOnward(q, left, next, Opened(group, delivery, now));
        JoinedOnward(begun, next, record, delivery, now);
        OnwardTrans(q, begun, JoinedTo(begun, next, record));
      }
    }
  }

  lemma OnwardNone(q: Queue)
    ensures Onward(q, q)
  {
  }

  lemma OpenedSoon(group: Group, delivery: Delivery, now: Time)
    ensures GoesSoon(Opened(group, delivery, now), delivery, now) && Opened(group, delivery, now).group == group
  {
  }

  lemma OpenedOnward(q: Queue, left: Queue, next: nat, batch: Batch)
    requires Onward(q, left) && next !in q.open
    ensures Onward(q, left.(open := left.open[next := batch]))
  {
  }

  lemma OnwardEmpty(q: Queue, left: Queue, group: Group, record: Record)
    requires Onward(q, left) && Onward(left, SentAlone(left, group, record))
    ensures Onward(q, SentAlone(left, group, record))
  {
    hide Flushed, Onward;
    OnwardTrans(q, left, SentAlone(left, group, record));
  }

  lemma GoneIsOnItsWay(q: Queue, message: Message, limit: Option<Time>, idle: bool)
    requires message in q.gone
    ensures OnItsWay(q, message, limit, idle)
  {
  }

  lemma NotBatched(record: Record, delivery: Delivery, idleOrNone: bool)
    ensures !delivery.batch ==> GoesAlone(record, delivery, idleOrNone)
  {
  }

  /** A batch as it begins: due after its delay, or with none by its deadline. */
  function Opened(group: Group, delivery: Delivery, now: Time): Batch {
    var deadline := if delivery.timeout.Some? then Some(now + delivery.timeout.value) else None;
    if delivery.maxDelay > 0 then Batch(group, delivery, [], 0, deadline, false, Some(now + delivery.maxDelay))
    else Batch(group, delivery, [], 0, deadline, true, deadline)
  }

  /** A batch made into frames; its numbers are the confirmed sends'. */
  method FramesOf(batch: Batch) returns (frames: seq<Framed>, ghost gone: Gone)
    requires |batch.records| <= batch.delivery.maxRecords && DeliveryOk(batch.group.messageType, batch.delivery)
    ensures FramesOk(frames) && frames == FramedAll(gone.handed, gone.group, gone.delivery, gone.header)
    ensures gone.group == batch.group && gone.records == batch.records && gone.delivery == Some(batch.delivery) && ArriveOk(gone)
  {
    hide LosesBody, Arrivals, Starts, ArrivesAs, HandedSoFar, FrameBegins, SizeOf, Encode;
    var header: nat;
    header := *;
    var numbers: seq<U64>;
    numbers := *;
    if |numbers| != |batch.records| || !NonZero(numbers) {
      numbers := seq(|batch.records|, _ => 1);
    }
    var makes: nat -> bool;
    makes := *;
    var handed := SendBatch(batch.records, numbers, batch.delivery.confirm, header, batch.delivery.maxBytes, makes);
    AllFramesOk(handed, batch.records, numbers, |batch.records|, batch.group, batch.delivery, header);
    frames := FramedAll(handed, batch.group, Some(batch.delivery), header);
    gone := Gone(batch.group, batch.records, Some(batch.delivery), header, handed);
  }

  class Batcher {
    var settings: Settings
    var open: map<nat, Batch>
    var index: Index
    var began: nat
    var frames: seq<Framed>

    /** The batches not closed: those open, and those about to go. */
    ghost var live: map<nat, Batch>
    /** Every message sent, in the order the program sent them. */
    ghost var sent: seq<Message>
    /** What was handed on, in order. */
    ghost var went: seq<Gone>
    /** When each batch began, and the last time read. */
    ghost var at: map<nat, Time>
    ghost var clock: Time

    ghost predicate Core(running: bool)
      reads `settings, `live, `index, `began, `sent, `frames, `went, `at, `clock
    {
      && SettingsOk(settings) && BatchesOk(live, settings, began) && IndexOk(live, index, running)
      && InOrderOf(live, index.byGroup, sent, GoneBy(went)) && FramesOk(frames)
      && frames == FramesBy(went) && WentOk(went) && TimesOk(live, at, clock)
    }

    ghost predicate Valid()
      reads this
    {
      open == live && Core(true) && RoomBut(live, {})
    }

    constructor ()
      ensures Valid() && open == map[] && frames == [] && sent == []
    {
      settings, open, began, frames := Settings(map[], map[]), map[], 0, [];
      index := Index(map[], {}, {}, None);
      live, sent, went, at, clock := map[], [], [], map[], 0;
    }

    /** The batch goes: out of the indexes, then handed on. */
    method CloseBatch(b: nat, batch: Batch, ghost running: bool)
      requires Core(running) && b in live && live[b] == batch
      modifies `open, `index, `frames, `went, `live
      ensures Core(running) && live == old(live) - {b} && open == old(open) - {b}
      ensures index == Without(old(index), b, batch)
      ensures GoneBy(went) == GoneBy(old(went)) + Messages(batch.group, batch.records)
    {
      hide SettingsOk, IndexOk, InOrderOf, FramesOk, BatchesOk, Without, GoneBy, FramesBy, FramedAll, Messages, ArriveOk, WentOk, TimesOk;
      WithoutOk(live, index, b, running);
      LessOk(live, settings, began, at, clock, b);
      GroupsOf(live, index, running);
      ClosedInOrder(live, index, b, sent, GoneBy(went));
      WithoutGroups(index, b, batch);
      BatchFits(live, settings, began, b);
      open := open - {b};
      index := Without(index, b, batch);
      live := live - {b};
      var more, gone := FramesOf(batch);
      GoneByMore(went, gone);
      MoreFramesOk(frames, more);
      MoreWentOk(went, gone);
      frames := frames + more;
      went := went + [gone];
    }

    /** Every batch goes, in the order they began. */
    method CloseBatches()
      requires Valid()
      modifies `open, `index, `frames, `went, `live
      ensures Valid() && open == map[] && Passed(old(State()), LetGo, State())
      ensures GoneBy(went) == GoneBy(old(went)) + Flushed(old(open))
    {
      hide Batcher.Core, Flushed, RoomBut, GoneBy, Messages, Ids, Without, Onward;
      AllOnward(State());
      FlushedNone();
      var going := open;
      open := map[];
      while going != map[]
        invariant Core(true) && live == going && open == map[]
        invariant GoneBy(went) + Flushed(going) == GoneBy(old(went)) + Flushed(old(open))
        decreases |going|
      {
        var b := Earliest(going.Keys);
        FlushedFirst(going, b);
        Smaller(going, b);
        Rejoined(GoneBy(went), Messages(going[b].group, going[b].records), Flushed(going - {b}));
        CloseBatch(b, going[b], true);
        going := going - {b};
      }
      assert RoomBut(map[], {}) by { NoneWithoutRoom(); }
      assert State() == Queue(map[], old(State()).gone + Flushed(old(State()).open));
    }

    /** Closes batch `b` and every batch that is waiting for idleness, oldest first. */
    method CloseOnItsOwn(b: nat, ghost running: bool)
      requires Core(running) && open == live
      modifies `open, `index, `frames, `went, `live
      ensures Core(running) && open == live == old(open) - (old(index).waitingForIdle + {b})
      ensures GoneBy(went) == GoneBy(old(went)) + Flushed(Restricted(old(open), old(index).waitingForIdle + {b}))
    {
      hide Batcher.Core, Flushed, GoneBy, Without, Restricted, Messages, Ids;
      FlushedNone();
      var all := index.waitingForIdle + {b};
      var going := all;
      MinusNone(open, all);
      while going != {}
        invariant Core(running) && open == live == old(open) - (all - going) && going <= all
        invariant GoneBy(went) + Flushed(Restricted(open, going)) == GoneBy(old(went)) + Flushed(Restricted(old(open), all))
        decreases |going|
      {
        var c := Earliest(going);
        FlushedStep(open, going, c);
        MinusOne(old(open), all, going, c);
        if c in open {
          Rejoined(GoneBy(went), Messages(open[c].group, open[c].records),
                   Flushed(Restricted(open - {c}, going - {c})));
          CloseBatch(c, open[c], running);
        }
        going := going - {c};
      }
      RestrictedNone(open);
      assert all - {} == all;
    }

    /** A message goes by itself, after every batch. */
    method SendAlone(group: Group, record: Record, delivery: Option<Delivery>)
      requires Valid() && open == map[] && (delivery.Some? ==> DeliveryOk(group.messageType, delivery.value) && !delivery.value.confirm)
      modifies `frames, `went, `sent
      ensures Valid() && sent == old(sent) + [Message(group, record.id, record.body)]
      ensures GoneBy(went) == GoneBy(old(went)) + [Message(group, record.id, record.body)]
    {
      hide SettingsOk, IndexOk, InOrderOf, FrameOk, BatchesOk, RoomBut, GoneBy, FramesBy, FramedAll, Messages, ArriveOk, WentOk;
      var frame := Framed(Alone(record.id, record.body), group, delivery, 0);
      ghost var message := Message(group, record.id, record.body);
      ghost var gone := Gone(group, [record], delivery, 0, [frame.out]);
      GoneByMore(went, gone);
      AloneArrives(gone, record);
      MoreWentOk(went, gone);
      AloneInOrder(index.byGroup, message, sent, GoneBy(went));
      AloneFrameOk(frame);
      frames := frames + [frame];
      sent, went := sent + [message], went + [gone];
    }

    /** A confirmed message alone: the frames of a batch with this one message. */
    method SendAloneConfirmed(group: Group, record: Record, delivery: Delivery, deadline: Option<Time>)
      requires Valid() && open == map[] && DeliveryOk(group.messageType, delivery)
      modifies `frames, `went, `sent
      ensures Valid() && sent == old(sent) + [Message(group, record.id, record.body)]
      ensures GoneBy(went) == GoneBy(old(went)) + [Message(group, record.id, record.body)]
    {
      hide SettingsOk, IndexOk, InOrderOf, FramesOk, BatchesOk, RoomBut, GoneBy, FramesBy, FramedAll, ArriveOk, WentOk;
      ghost var message := Message(group, record.id, record.body);
      var more, gone := FramesOf(Batch(group, delivery, [record], |record.body|, deadline, false, None));
      assert Messages(group, [record]) == [message];
      GoneByMore(went, gone);
      MoreWentOk(went, gone);
      AloneInOrder(index.byGroup, message, sent, GoneBy(went));
      MoreFramesOk(frames, more);
      frames := frames + more;
      sent, went := sent + [message], went + [gone];
    }

    /** A batch opened for a group that has none. */
    method OpenBatch(group: Group, delivery: Delivery, now: Time) returns (b: nat)
      requires Valid() && DeliveryFor(settings, group) == Some(delivery) && delivery.batch
      requires Find(index.byGroup, group).None? && clock == now
      modifies `open, `index, `live, `began, `at
      ensures Core(true) && open == live && RoomBut(live, {b}) && b !in old(open)
      ensures b == old(began) + 1 && open == old(open)[b := Opened(group, delivery, now)]
      ensures Find(index.byGroup, group) == Some(b)
    {
      hide SettingsOk, IndexOk, InOrderOf, FramesOk, DeliveryFor, Find, With, BatchesOk, TimesOk, GoneBy, FramesBy, WentOk, Opened;
      OpenedOk(live, settings, began, at, group, delivery, now);
      began := began + 1;
      b := began;
      at := at[b := now];
      var batch := Opened(group, delivery, now);
      WithOk(live, index, b, batch);
      WithGroups(index, b, batch);
      GroupsOf(live, index, true);
      OpenedInOrder(live, index.byGroup, b, batch, sent, GoneBy(went));
      open := open[b := batch];
      live := live[b := batch];
      index := With(index, b, batch);
    }

    /** Appends a message to an open batch, full or not afterwards. */
    method Join(b: nat, record: Record)
      requires Core(true) && open == live && b in open && RoomBut(live, {b})
      requires |open[b].records| < open[b].delivery.maxRecords
      modifies `open, `live, `sent
      ensures Core(true) && open == live && RoomBut(live, {b})
      ensures sent == old(sent) + [Message(old(open[b]).group, record.id, record.body)]
      ensures open == old(open)[b := old(open[b]).(records := old(open[b]).records + [record],
                                                   bytes := old(open[b]).bytes + |record.body|)]
    {
      hide SettingsOk, IndexOk, InOrderOf, FramesOk, DeliveryFor, GoneBy, BatchesOk, TimesOk, FramesBy, WentOk;
      var batch := open[b];
      var now := batch.(records := batch.records + [record], bytes := batch.bytes + |record.body|);
      SameIndexOk(live, index, b, now);
      GroupsOf(live, index, true);
      JoinedInOrder(live, index.byGroup, b, record, sent, GoneBy(went));
      JoinedOk(live, settings, began, at, clock, b, record);
      open := open[b := now];
      live := live[b := now];
      sent := sent + [Message(batch.group, record.id, record.body)];
    }

    /** A message joins a batch, which goes once it is full. */
    method JoinOrFill(b: nat, record: Record)
      requires Core(true) && open == live && b in open && RoomBut(live, {b})
      requires |open[b].records| < open[b].delivery.maxRecords
      modifies `open, `index, `live, `frames, `went, `sent
      ensures Valid() && sent == old(sent) + [Message(old(open[b]).group, record.id, record.body)]
      ensures State() == JoinedTo(old(State()), b, record)
    {
      hide Batcher.Core, GoneBy, Flushed, Restricted;
      Join(b, record);
      if |open[b].records| >= open[b].delivery.maxRecords || open[b].bytes >= open[b].delivery.maxBytes {
        WaitingIs();
        CloseOnItsOwn(b, true);
      }
    }

    /** A message by itself after every batch; confirmed, as a batch of one. */
    method SubmitAlone(record: Record, group: Group, delivery: Delivery, now: Time)
      requires Valid() && DeliveryOk(group.messageType, delivery)
      modifies `open, `index, `live, `frames, `went, `sent
      ensures Valid() && sent == old(sent) + [Message(group, record.id, record.body)]
      ensures State() == SentAlone(old(State()), group, record) && open == map[]
    {
      hide Batcher.Core, GoneBy, Flushed, DeliveryOk;
      CloseBatches();
      var deadline := if delivery.timeout.Some? then Some(now + delivery.timeout.value) else None;
      if !delivery.confirm {
        SendAlone(group, record, Some(delivery));
      } else {
        SendAloneConfirmed(group, record, delivery, deadline);
      }
    }

    /** The time read. */
    ghost method Tick(now: Time)
      requires Valid() && clock <= now
      modifies `clock
      ensures Valid() && clock == now
    {
      hide SettingsOk, IndexOk, InOrderOf, FramesOk, BatchesOk, RoomBut, GoneBy, FramesBy, WentOk;
      clock := now;
    }

    lemma JoinsFound(record: Record, group: Group, delivery: Delivery, now: Time)
      requires Valid() && DeliveryFor(settings, group) == Some(delivery) && delivery.batch
      ensures forall idleOrNone :: TakesMore(record, group, delivery) || !GoesAlone(record, delivery, idleOrNone) ==>
        JoinsUnlessFull(HeldWith(record, group, delivery), record, group, delivery,
                        Submitted(State(), FoundFor(group, delivery), began + 1, record, group, delivery, now, idleOrNone).open)
    {
      hide Find, DeliveryFor, NoneEmpty, GoneBy, FramesBy, WentOk, GoesAlone, JoinsUnlessFull, Submitted, BodyBytes;
      var found := FoundFor(group, delivery);
      if found.Some? {
        FoundIs(group, delivery);
        assert BatchOk(live[found.value], settings);
      }
      SubmittedJoins(State(), found, began + 1, record, group, delivery, now);
    }

    lemma FoundSoon(group: Group, delivery: Delivery, now: Time)
      requires Valid() && clock <= now && DeliveryFor(settings, group) == Some(delivery)
      ensures var found := Find(index.byGroup, group);
              found.Some? ==> found.value in open && open[found.value].group == group && GoesSoon(open[found.value], delivery, now)
      ensures began + 1 !in open
    {
      hide Find, DeliveryFor, NoneEmpty, GoneBy, FramesBy, WentOk;
      if Find(index.byGroup, group).Some? {
        FoundIs(group, delivery);
        var b := Find(index.byGroup, group).value;
        assert BatchOk(live[b], settings);
      }
    }

    ghost function State(): Queue
      reads `open, `went
    {
      Queue(open, GoneBy(went))
    }

    /** The open batch of a message's group, where its delivery batches. */
    ghost function FoundFor(group: Group, delivery: Delivery): Option<nat>
      reads `index
    {
      if delivery.batch then Find(index.byGroup, group) else None
    }

    /** The group's open batch has room for a message. */
    ghost predicate TakesMore(record: Record, group: Group, delivery: Delivery)
      reads this
    {
      var found := FoundFor(group, delivery);
      && found.Some? && found.value in open && |open[found.value].records| < delivery.maxRecords
      && open[found.value].bytes + |record.body| <= delivery.maxBytes
    }

    /** The messages that one joins: those of its group's open batch with room for it. */
    ghost function HeldWith(record: Record, group: Group, delivery: Delivery): seq<Record>
      reads this
    {
      if TakesMore(record, group, delivery) then open[FoundFor(group, delivery).value].records else []
    }

    lemma WaitingIs()
      requires Core(true) && open == live
      ensures index.waitingForIdle == Waiting(open)
    {
      hide BatchesOk, InOrderOf, FramesOk, SettingsOk;
      WaitingAreOpen();
    }

    /** Takes a message to batch or to confirm, as `Submitted` says. */
    method Submit(record: Record, group: Group, delivery: Delivery, now: Time, idleOrNone: bool) returns (alone: bool)
      requires Valid() && DeliveryFor(settings, group) == Some(delivery) && (delivery.batch || delivery.confirm) && clock <= now
      modifies `open, `index, `live, `began, `frames, `went, `sent, `at, `clock
      ensures Valid() && sent == old(sent) + [Message(group, record.id, record.body)]
      ensures State() == Submitted(old(State()), old(FoundFor(group, delivery)), old(began) + 1, record, group, delivery, now, idleOrNone)
      ensures Passed(old(State()), Sent(Message(group, record.id, record.body),
                                        if delivery.maxDelay > 0 then Some(now + delivery.maxDelay)
                                        else if delivery.timeout.Some? then Some(now + delivery.timeout.value) else None,
                                        delivery.maxDelay == 0), State())
      ensures alone <==>
        && (!delivery.batch || |record.body| >= delivery.maxBytes || (delivery.maxDelay == 0 && idleOrNone))
        && !old(TakesMore(record, group, delivery))
      ensures alone ==> open == map[]
      ensures !alone ==> JoinsUnlessFull(old(HeldWith(record, group, delivery)), record, group, delivery, open)
    {
      hide Batcher.Core, GoneBy, Find, DeliveryFor, Flushed, Restricted, BodyBytes, DeliveryOk, GoesAlone, JoinedTo, SentAlone, Opened,
           Waiting, Passed, Limit, GoesSoon, JoinsUnlessFull, Batcher.HeldWith;
      FoundSoon(group, delivery, now);
      if delivery.batch {
        JoinsFound(record, group, delivery, now);
      }
      Tick(now);
      SubmittedOnward(old(State()), old(FoundFor(group, delivery)), old(began) + 1, record, group, delivery, now, idleOrNone);
      DeliveryIsOk(group, delivery);
      assert !delivery.batch ==> GoesAlone(record, delivery, idleOrNone) by { NotBatched(record, delivery, idleOrNone); }
      var bytes := |record.body|;
      var found := if delivery.batch then Find(index.byGroup, group) else None;
      if found.Some? {
        FoundIs(group, delivery);
        var batch := open[found.value];
        if |batch.records| >= delivery.maxRecords || batch.bytes + bytes > delivery.maxBytes {
          WaitingIs();
          CloseOnItsOwn(found.value, true);
          NotFound(group);
          found := None;
        }
      }
      AloneIs(record, delivery, idleOrNone, now);
      if found.None? {
        if GoesAlone(record, delivery, idleOrNone) {
          SubmitAlone(record, group, delivery, now);
          return true;
        }
        OpenedFits(group, delivery, now);
        var b := OpenBatch(group, delivery, now);
        found := Some(b);
      }
      JoinOrFill(found.value, record);
      alone := false;
    }

    /** A plain event, by what is set for its key or its type, or alone. */
    method SendPlain(record: Record, group: Group, now: Time, idleOrNone: bool) returns (alone: bool)
      requires Valid() && clock <= now
      modifies `open, `index, `live, `began, `frames, `went, `sent, `at, `clock
      ensures Valid() && sent == old(sent) + [Message(group, record.id, record.body)]
      ensures Passed(old(State()), Sent(Message(group, record.id, record.body), SetLimit(settings, group, now),
                                        SetIdle(settings, group)), State())
      ensures var delivery := DeliveryFor(settings, group);
              if delivery.Some? && (delivery.value.batch || delivery.value.confirm) then
                && (alone <==>
                      && (!delivery.value.batch || |record.body| >= delivery.value.maxBytes ||
                          (delivery.value.maxDelay == 0 && idleOrNone))
                      && !old(TakesMore(record, group, delivery.value)))
                && State() == Submitted(old(State()), old(FoundFor(group, delivery.value)), old(began) + 1, record, group,
                                        delivery.value, now, idleOrNone)
              else
                alone && State() == SentAlone(old(State()), group, record)
    {
      hide Batcher.Core, GoneBy, DeliveryFor, Flushed, Submitted, GoesAlone, Onward, OnItsWay;
      var delivery := DeliveryFor(settings, group);
      if delivery.Some? && (delivery.value.batch || delivery.value.confirm) {
        alone := Submit(record, group, delivery.value, now, idleOrNone);
        return;
      }
      AloneOnward(State(), group, record);
      CloseBatches();
      SendAlone(group, record, None);
      alone := true;
      GoneIsOnItsWay(State(), Message(group, record.id, record.body), SetLimit(settings, group, now), SetIdle(settings, group));
    }

    /** What is set for a type or for one of its keys changed, once every batch has
        gone; refused for a protocol type, a key too long or bounds out of range. */
    method SetDelivery(messageType: nat, key: Option<string>, delivery: Delivery) returns (ok: bool)
      requires Valid()
      modifies `settings, `open, `index, `live, `frames, `went
      ensures Valid()
      ensures ok <==>
        && messageType > MAX_META_TYPE && (key.Some? ==> |key.value| <= MAX_KEY_SIZE)
        && 1 <= delivery.maxRecords <= MAX_BATCH_RECORDS && 1 <= delivery.maxBytes <= MAX_MESSAGE_SIZE
        && delivery.maxDelay <= MAX_TICKS && (delivery.confirm ==> 0 < delivery.retryAfter <= MAX_TICKS)
        && (delivery.timeout.Some? ==> delivery.timeout.value > if delivery.batch then delivery.maxDelay else 0)
      ensures !ok ==> settings == old(settings) && open == old(open) && frames == old(frames)
      ensures ok ==> open == map[] && DeliveryFor(settings, Group(messageType, key)) == Some(delivery)
      ensures ok ==> Passed(old(State()), LetGo, State()) && OthersStay(old(settings), settings, messageType, key)
      ensures ok && key.None? ==> forall k: string ::
        DeliveryFor(settings, Group(messageType, Some(k))) ==
          if OwnSetting(old(settings), messageType, k).Some? then OwnSetting(old(settings), messageType, k) else Some(delivery)
    {
      hide SettingsOk, IndexOk, InOrderOf, FramesOk, GoneBy;
      ok := DeliveryOk(messageType, delivery) && KeyFits(key);
      if !ok {
        return;
      }
      CloseBatches();
      SetOk(settings, messageType, key, delivery);
      settings := Set(settings, messageType, key, delivery);
    }

    method ClearDelivery(messageType: nat, key: Option<string>)
      requires Valid()
      modifies `settings, `open, `index, `live, `frames, `went
      ensures Valid() && open == map[] && Passed(old(State()), LetGo, State())
      ensures OthersStay(old(settings), settings, messageType, key)
      ensures key.None? ==> forall g: Group :: g.messageType == messageType ==> DeliveryFor(settings, g) == None
      ensures DeliveryFor(settings, Group(messageType, key)) ==
        if key.Some? then DeliveryFor(settings, Group(messageType, None)) else None
    {
      hide SettingsOk, IndexOk, InOrderOf, FramesOk, GoneBy;
      CloseBatches();
      ClearedOk(settings, messageType, key);
      settings := Cleared(settings, messageType, key);
    }

    /** Closes the batches that are waiting for idleness, oldest first. */
    method CloseIdleBatches()
      requires Valid()
      modifies `open, `index, `live, `frames, `went
      ensures Valid() && index.waitingForIdle == {} && Passed(old(State()), Idle, State())
      ensures open == old(open) - old(index).waitingForIdle
      ensures GoneBy(went) == GoneBy(old(went)) + Flushed(Restricted(old(open), old(index).waitingForIdle))
    {
      hide Batcher.Core, Flushed, GoneBy, Restricted, Messages, Ids, Without, HasRoom;
      FlushedNone();
      WaitingAreOpen();
      var all := index.waitingForIdle;
      var waiting := all;
      MinusNone(open, all);
      while waiting != {}
        invariant Core(true) && open == live == old(open) - (all - waiting) && waiting <= all <= old(open).Keys
        invariant GoneBy(went) + Flushed(Restricted(open, waiting)) == GoneBy(old(went)) + Flushed(Restricted(old(open), all))
        decreases |waiting|
      {
        var b := Earliest(waiting);
        FlushedStep(open, waiting, b);
        MinusOne(old(open), all, waiting, b);
        Rejoined(GoneBy(went), Messages(open[b].group, open[b].records),
                 Flushed(Restricted(open - {b}, waiting - {b})));
        CloseBatch(b, open[b], true);
        waiting := waiting - {b};
      }
      RestrictedNone(open);
      assert all - {} == all;
      NoneWaiting();
      FlushOnward(old(State()), all);
      WaitingAreOpen();
    }

    /** Closes what is due at `now`, with all that is waiting for idleness if anything is,
        and arms the timer for the rest. */
    method TimerFired(now: Time)
      requires Valid()
      modifies `open, `index, `live, `frames, `went
      ensures Valid() && Passed(old(State()), Fired(now), State())
      ensures forall b :: b in open ==> b in old(open) && open[b] == old(open)[b]
      ensures if exists b :: b in old(open) && old(open)[b].due.Some? && old(open)[b].due.value <= now
              then forall b :: b in old(open) ==>
                (b !in open <==> old(open)[b].waitsForIdle || (old(open)[b].due.Some? && old(open)[b].due.value <= now))
              else open == old(open) && frames == old(frames)
    {
      hide Batcher.Core, Flushed, GoneBy, Restricted, StillDue, Onward;
      OnwardNone(State());
      TurnOff();
      DueAreDue(now);
      var due := set e | e in index.byDue && e.0 <= now;
      ghost var all := open;
      DueBegins(open, due, now);
      if due == {} {
        NoneDue(all, open, due, now);
        Arm();
        return;
      }
      DueGo(due, now);
      DueGone(all, open, now);
      Arm();
    }

    /** Every batch due goes, the first time with all that wait for a connection. */
    method DueGo(all: set<(Time, nat)>, now: Time)
      requires Core(false) && open == live && RoomBut(live, {}) && all != {} && StillDue(open, open, all, now)
      modifies `open, `index, `live, `frames, `went
      ensures Core(false) && open == live && RoomBut(live, {}) && StillDue(old(open), open, {}, now)
      ensures Onward(old(State()), State()) && forall b :: b in open ==> !open[b].waitsForIdle
    {
      hide Batcher.Core, Flushed, GoneBy, Restricted, StillDue, Onward, RoomBut;
      OnwardNone(State());
      var due := all;
      while due != {}
        invariant Core(false) && open == live && RoomBut(live, {})
        invariant StillDue(old(open), open, due, now)
        invariant Onward(old(State()), State())
        invariant due != all ==> forall b :: b in open ==> !open[b].waitsForIdle
        invariant due == {} ==> due != all
        decreases |due|
      {
        var e := EarliestDue(due);
        WaitingAre();
        DueGoes(old(open), open, due, now, e, index.waitingForIdle);
        RoomLess(live, index.waitingForIdle + {e.1});
        ghost var before := State();
        FlushOnward(before, index.waitingForIdle + {e.1});
        CloseOnItsOwn(e.1, false);
        OnwardTrans(old(State()), before, State());
        assert e in due;
        due := due - {e};
      }
    }

    /** The timer has fired: off, though some batches have a time. */
    method TurnOff()
      requires Core(true)
      modifies `index
      ensures Core(false) && index == old(index).(armed := None)
    {
      hide SettingsOk, BatchesOk, InOrderOf, FramesOk, GroupsOk, WaitingOk, DueOk;
      index := index.(armed := None);
    }

    /** The timer runs to the earliest time. */
    method Arm()
      requires Core(false)
      modifies `index
      ensures Core(true) && index == old(index).(armed := index.armed)
    {
      hide SettingsOk, BatchesOk, InOrderOf, FramesOk, GroupsOk, WaitingOk, DueOk;
      if index.byDue == {} {
        return;
      }
      var e := EarliestDue(index.byDue);
      if index.armed.Some? && e.0 >= index.armed.value {
        return;
      }
      index := index.(armed := Some(e.0));
    }

    lemma WaitingAreOpen()
      requires Core(true)
      ensures forall b :: b in index.waitingForIdle <==> b in live && live[b].waitsForIdle
    {
    }

    lemma NoneWaiting()
      requires Core(true) && forall b :: b in live ==> !live[b].waitsForIdle
      ensures index.waitingForIdle == {}
    {
      assert forall b :: b !in index.waitingForIdle;
    }

    lemma DueAreDue(now: Time)
      requires Core(false)
      ensures forall b :: b in live && IsDue(live[b], now) ==> (live[b].due.value, b) in index.byDue
      ensures forall e :: e in index.byDue && e.0 <= now ==> e.1 in live && IsDue(live[e.1], now)
    {
      forall e | e in index.byDue && e.0 <= now ensures e.1 in live && IsDue(live[e.1], now) {
        assert (e.0, e.1) in index.byDue;
      }
    }

    lemma WaitingAre()
      requires Core(false)
      ensures forall b :: b in index.waitingForIdle <==> b in live && live[b].waitsForIdle
    {
    }

    lemma DeliveryIsOk(group: Group, delivery: Delivery)
      requires Core(true) && DeliveryFor(settings, group) == Some(delivery)
      ensures DeliveryOk(group.messageType, delivery)
    {
      assert DeliveryFor(settings, group).Some?;
    }

    lemma FoundIs(group: Group, delivery: Delivery)
      requires Valid() && Find(index.byGroup, group).Some? && DeliveryFor(settings, group) == Some(delivery)
      ensures var b := Find(index.byGroup, group).value;
              b in open && open[b].group == group && open[b].delivery == delivery &&
              |open[b].records| < delivery.maxRecords && open[b].bytes < delivery.maxBytes &&
              forall c :: c in open && open[c].group == group ==> c == b
    {
      hide Find, DeliveryFor, NoneEmpty;
      var b := Find(index.byGroup, group).value;
      assert BatchOk(live[b], settings);
    }

    lemma NotFound(group: Group)
      requires Core(true) && forall c :: c in live ==> live[c].group != group
      ensures Find(index.byGroup, group).None?
    {
      hide Find, NoneEmpty;
    }
  }

  /** The earliest of some batches due, the first begun of those. */
  method EarliestDue(due: set<(Time, nat)>) returns (first: (Time, nat))
    requires due != {}
    ensures first in due && forall e :: e in due ==> first.0 <= e.0
  {
    var times := set e | e in due :: e.0;
    var some :| some in due;
    assert some.0 in times;
    var time := Earliest(times);
    var begun := set e | e in due && e.0 == time :: e.1;
    var one :| one in due && one.0 == time;
    assert one.1 in begun;
    var b := Earliest(begun);
    first := (time, b);
    assert forall e :: e in due ==> e.0 in times;
  }

  function Set(settings: Settings, messageType: nat, key: Option<string>, delivery: Delivery): Settings {
    if key.None? then settings.(byType := settings.byType[messageType := delivery])
    else
      var keys := if messageType in settings.byKey then settings.byKey[messageType] else map[];
      settings.(byKey := settings.byKey[messageType := keys[key.value := delivery]])
  }

  /** A type's setting and its keys', or one key's, and the type's keys with the last. */
  function Cleared(settings: Settings, messageType: nat, key: Option<string>): Settings {
    if key.None? then Settings(settings.byType - {messageType}, settings.byKey - {messageType})
    else if messageType !in settings.byKey then settings
    else
      var left := settings.byKey[messageType] - {key.value};
      settings.(byKey := if left == map[] then settings.byKey - {messageType} else settings.byKey[messageType := left])
  }

  /** What is set for a group keeps unless it is the one changed, or the change is of its
      type and it has nothing of its own or is cleared with the type. */
  ghost predicate OthersStay(settings: Settings, now: Settings, messageType: nat, key: Option<string>) {
    && (forall g: Group :: g.messageType != messageType || (key.Some? && g.key != key) ==> DeliveryFor(now, g) == DeliveryFor(settings, g))
    && (forall k: string :: key.Some? && key.value != k ==> (OwnSetting(now, messageType, k) == OwnSetting(settings, messageType, k)))
  }

  /** What is set for one key of a type. */
  function OwnSetting(settings: Settings, messageType: nat, key: string): Option<Delivery> {
    if messageType in settings.byKey && key in settings.byKey[messageType] then Some(settings.byKey[messageType][key]) else None
  }

  lemma SetOk(settings: Settings, messageType: nat, key: Option<string>, delivery: Delivery)
    requires SettingsOk(settings) && DeliveryOk(messageType, delivery)
    ensures SettingsOk(Set(settings, messageType, key, delivery))
    ensures DeliveryFor(Set(settings, messageType, key, delivery), Group(messageType, key)) == Some(delivery)
    ensures OthersStay(settings, Set(settings, messageType, key, delivery), messageType, key)
    ensures key.None? ==> forall k: string ::
      DeliveryFor(Set(settings, messageType, key, delivery), Group(messageType, Some(k))) ==
        if OwnSetting(settings, messageType, k).Some? then OwnSetting(settings, messageType, k) else Some(delivery)
  {
    var now := Set(settings, messageType, key, delivery);
    forall g | DeliveryFor(now, g).Some? ensures DeliveryOk(g.messageType, DeliveryFor(now, g).value) {
      assert DeliveryFor(settings, g).Some? ==> DeliveryOk(g.messageType, DeliveryFor(settings, g).value);
      assert DeliveryFor(settings, Group(g.messageType, None)).Some? ==>
        DeliveryOk(g.messageType, DeliveryFor(settings, Group(g.messageType, None)).value);
    }
  }

  lemma ClearedOwn(settings: Settings, messageType: nat, key: string, k: string)
    ensures OwnSetting(Cleared(settings, messageType, Some(key)), messageType, k) ==
      if k == key then None else OwnSetting(settings, messageType, k)
  {
    if messageType in settings.byKey {
      var left := settings.byKey[messageType] - {key};
      if k in settings.byKey[messageType] && k != key {
        assert k in left;
      }
    }
  }

  lemma ClearedOne(settings: Settings, messageType: nat, key: Option<string>)
    ensures var now := Cleared(settings, messageType, key);
            DeliveryFor(now, Group(messageType, key)) == if key.Some? then DeliveryFor(now, Group(messageType, None)) else None
    ensures key.None? ==> forall g: Group :: g.messageType == messageType ==> DeliveryFor(Cleared(settings, messageType, key), g) == None
  {
    if key.Some? {
      ClearedOwn(settings, messageType, key.value, key.value);
    }
  }

  lemma ClearedOthers(settings: Settings, messageType: nat, key: Option<string>)
    ensures OthersStay(settings, Cleared(settings, messageType, key), messageType, key)
  {
    var now := Cleared(settings, messageType, key);
    forall g: Group | g.messageType != messageType || (key.Some? && g.key != key) ensures DeliveryFor(now, g) == DeliveryFor(settings, g) {
      if key.Some? && g.messageType == messageType && g.key.Some? {
        ClearedOwn(settings, messageType, key.value, g.key.value);
      }
    }
    forall k: string | key.Some? && key.value != k ensures OwnSetting(now, messageType, k) == OwnSetting(settings, messageType, k) {
      ClearedOwn(settings, messageType, key.value, k);
    }
  }

  lemma ClearedOk(settings: Settings, messageType: nat, key: Option<string>)
    requires SettingsOk(settings)
    ensures var now := Cleared(settings, messageType, key);
            SettingsOk(now) && OthersStay(settings, now, messageType, key) && DeliveryFor(now, Group(messageType, key)) ==
              if key.Some? then DeliveryFor(now, Group(messageType, None)) else None
  {
    var now := Cleared(settings, messageType, key);
    ClearedOthers(settings, messageType, key);
    assert DeliveryFor(now, Group(messageType, key)) == if key.Some? then DeliveryFor(now, Group(messageType, None)) else None by {
      ClearedOne(settings, messageType, key);
    }
    hide Cleared;
    forall g | DeliveryFor(now, g).Some? ensures DeliveryOk(g.messageType, DeliveryFor(now, g).value) {
      assert DeliveryFor(settings, g).Some? ==> DeliveryOk(g.messageType, DeliveryFor(settings, g).value);
      assert DeliveryFor(settings, Group(g.messageType, None)).Some? ==>
        DeliveryOk(g.messageType, DeliveryFor(settings, Group(g.messageType, None)).value);
    }
  }

  /** A batch that goes when the timer fires: due, or waiting for a connection,
      which goes with one that is due. */
  predicate GoesBy(batch: Batch, now: Time) {
    batch.waitsForIdle || IsDue(batch, now)
  }

  predicate IsDue(batch: Batch, now: Time) {
    batch.due.Some? && batch.due.value <= now
  }

  /** While the batches due go: what is left is as it was, nothing is gone that does not
      go by then, and what is due is among what is still to go. */
  ghost predicate StillDue(all: map<nat, Batch>, open: map<nat, Batch>, due: set<(Time, nat)>, now: Time) {
    && (forall b :: b in open ==> b in all && open[b] == all[b])
    && (forall b :: b in all && !GoesBy(all[b], now) ==> b in open)
    && (forall e :: e in due ==> e.1 in all && IsDue(all[e.1], now))
    && (forall b :: b in open && IsDue(open[b], now) ==> (open[b].due.value, b) in due)
  }

  lemma DueBegins(open: map<nat, Batch>, due: set<(Time, nat)>, now: Time)
    requires forall e :: e in due ==> e.1 in open && IsDue(open[e.1], now)
    requires forall b :: b in open && IsDue(open[b], now) ==> (open[b].due.value, b) in due
    ensures StillDue(open, open, due, now)
  {
  }

  lemma DueGoes(all: map<nat, Batch>, open: map<nat, Batch>, due: set<(Time, nat)>, now: Time, e: (Time, nat), waiting: set<nat>)
    requires StillDue(all, open, due, now) && e in due
    requires forall b :: b in waiting <==> b in open && open[b].waitsForIdle
    ensures StillDue(all, open - (waiting + {e.1}), due - {e}, now)
    ensures forall b :: b in open - (waiting + {e.1}) ==> !(open - (waiting + {e.1}))[b].waitsForIdle
  {
  }

  lemma NoneDue(all: map<nat, Batch>, open: map<nat, Batch>, due: set<(Time, nat)>, now: Time)
    requires StillDue(all, open, due, now) && due == {}
    ensures forall b :: b in open ==> !IsDue(open[b], now)
  {
  }

  /** With none due left, and none that waits for a connection, exactly those that go by
      then are gone. */
  lemma DueGone(all: map<nat, Batch>, open: map<nat, Batch>, now: Time)
    requires StillDue(all, open, {}, now) && forall b :: b in open ==> !open[b].waitsForIdle
    ensures forall b :: b in all ==> (b in open <==> !GoesBy(all[b], now))
    ensures forall b :: b in open ==> b in all && open[b] == all[b] && !IsDue(open[b], now)
  {
  }

  lemma MoreWentOk(went: seq<Gone>, gone: Gone)
    requires WentOk(went) && ArriveOk(gone)
    ensures WentOk(went + [gone])
  {
    hide ArriveOk;
  }

  /** A message by itself arrives with its body. */
  lemma AloneArrives(gone: Gone, record: Record)
    requires gone.records == [record] && gone.handed == [Alone(record.id, record.body)] && !Confirms(gone)
    ensures ArriveOk(gone) && Messages(gone.group, gone.records) == [Message(gone.group, record.id, record.body)]
    ensures FramedAll(gone.handed, gone.group, gone.delivery, gone.header)
            == [Framed(gone.handed[0], gone.group, gone.delivery, gone.header)]
  {
    hide Arrivals, Starts, SizeOf;
    OneHanded(gone.handed[0]);
    assert |gone.records[0..]| == 1;
  }

  lemma AloneFrameOk(frame: Framed)
    requires frame.out.Alone? && (frame.delivery.Some? ==> DeliveryOk(frame.group.messageType, frame.delivery.value))
    ensures FrameOk(frame)
  {
  }

  lemma WithGroups(index: Index, b: nat, batch: Batch)
    ensures With(index, b, batch).byGroup == Linked(index.byGroup, batch.group, b)
    ensures Find(With(index, b, batch).byGroup, batch.group) == Some(b)
  {
    LinkedFinds(index.byGroup, batch.group, b);
  }

  lemma {:induction false} BodyBytesMore(records: seq<Record>, record: Record)
    ensures BodyBytes(records + [record]) == BodyBytes(records) + |record.body|
  {
    if records == [] {
      assert ([record])[1..] == [];
      assert records + [record] == [record];
    } else {
      assert (records + [record])[1..] == records[1..] + [record];
      BodyBytesMore(records[1..], record);
    }
  }

  /** The first of some batches in the order they began. */
  method Earliest(keys: set<nat>) returns (first: nat)
    requires keys != {}
    ensures IsLeast(keys, first)
  {
    LeastExists(keys);
    first :| first in keys && IsLeast(keys, first);
  }

  lemma Rejoined(gone: seq<Message>, next: seq<Message>, rest: seq<Message>)
    ensures (gone + next) + rest == gone + (next + rest)
  {
  }

  lemma RoomLess(live: map<nat, Batch>, keys: set<nat>)
    requires RoomBut(live, {})
    ensures RoomBut(live - keys, {})
  {
  }

  lemma NoneWithoutRoom()
    ensures RoomBut(map[], {})
  {
  }

  lemma MinusNone(batches: map<nat, Batch>, all: set<nat>)
    ensures batches - (all - all) == batches
  {
  }

  lemma MinusOne(batches: map<nat, Batch>, all: set<nat>, going: set<nat>, c: nat)
    requires c in going && going <= all
    ensures (batches - (all - going)) - {c} == batches - (all - (going - {c}))
    ensures c !in batches ==> batches - (all - going) == batches - (all - (going - {c}))
    ensures c in batches ==> c in batches - (all - going)
  {
  }

  lemma RestrictedNone(batches: map<nat, Batch>)
    ensures Restricted(batches, {}) == map[]
  {
  }

  lemma GroupsOf(live: map<nat, Batch>, index: Index, running: bool)
    requires IndexOk(live, index, running)
    ensures GroupsOk(live, index.byGroup)
  {
  }

  lemma WithoutGroups(index: Index, b: nat, batch: Batch)
    ensures Without(index, b, batch).byGroup == Unlinked(index.byGroup, batch.group)
  {
  }

  lemma LessOk(live: map<nat, Batch>, settings: Settings, began: nat, at: map<nat, Time>, clock: Time, b: nat)
    requires BatchesOk(live, settings, began) && TimesOk(live, at, clock)
    ensures BatchesOk(live - {b}, settings, began) && TimesOk(live - {b}, at, clock)
  {
    hide BatchOk, DueFrom;
  }

  lemma BatchFits(live: map<nat, Batch>, settings: Settings, began: nat, b: nat)
    requires BatchesOk(live, settings, began) && SettingsOk(settings) && b in live
    ensures |live[b].records| <= live[b].delivery.maxRecords
    ensures DeliveryOk(live[b].group.messageType, live[b].delivery)
  {
  }

  lemma MoreFramesOk(frames: seq<Framed>, more: seq<Framed>)
    requires FramesOk(frames) && FramesOk(more)
    ensures FramesOk(frames + more)
  {
    hide FrameOk;
  }
}
