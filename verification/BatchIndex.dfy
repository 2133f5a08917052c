/** The batches open and what finds them: by group, by the connection they wait
    for, by when they are due, with one timer; and the order of the messages of
    each group. */
module BatchIndex {
  import opened BatchFrames
  import opened Common

  type Time = nat

  /** What the messages of a batch have in common. */
  datatype Group = Group(messageType: nat, key: Option<string>)

  datatype Delivery = Delivery(batch: bool, confirm: bool, maxRecords: nat, maxBytes: nat, maxDelay: Time,
                               timeout: Option<Time>, retryAfter: Time)

  datatype Batch = Batch(group: Group, delivery: Delivery, records: seq<Record>, bytes: nat, deadline: Option<Time>,
                         waitsForIdle: bool, due: Option<Time>)

  // By group

  datatype OfType = OfType(keyless: Option<nat>, keyed: map<string, nat>)

  type ByGroup = map<nat, OfType>

  function Find(byGroup: ByGroup, group: Group): Option<nat> {
    if group.messageType !in byGroup then None
    else
      var ofType := byGroup[group.messageType];
      if group.key.None? then ofType.keyless
      else if group.key.value in ofType.keyed then Some(ofType.keyed[group.key.value])
      else None
  }

  function Linked(byGroup: ByGroup, group: Group, began: nat): ByGroup {
    var ofType := if group.messageType in byGroup then byGroup[group.messageType] else OfType(None, map[]);
    byGroup[group.messageType := if group.key.None? then ofType.(keyless := Some(began))
                                 else ofType.(keyed := ofType.keyed[group.key.value := began])]
  }

  /** Taken out, and its type with the last one. */
  function Unlinked(byGroup: ByGroup, group: Group): ByGroup {
    if group.messageType !in byGroup then byGroup
    else
      var ofType := byGroup[group.messageType];
      var left := if group.key.None? then ofType.(keyless := None) else ofType.(keyed := ofType.keyed - {group.key.value});
      if left.keyless.None? && left.keyed == map[] then byGroup - {group.messageType}
      else byGroup[group.messageType := left]
  }

  lemma LinkedFinds(byGroup: ByGroup, group: Group, began: nat)
    ensures forall g :: Find(Linked(byGroup, group, began), g) == if g == group then Some(began) else Find(byGroup, g)
  {
  }

  lemma UnlinkedFinds(byGroup: ByGroup, group: Group)
    ensures forall g :: Find(Unlinked(byGroup, group), g) == if g == group then None else Find(byGroup, g)
  {
    if group.messageType in byGroup && group.key.Some? {
      var left := byGroup[group.messageType].keyed - {group.key.value};
      assert left == map[] ==> forall k :: k in byGroup[group.messageType].keyed ==> k !in left;
    }
  }

  /** No type is kept without a batch. */
  ghost predicate NoneEmpty(byGroup: ByGroup) {
    forall t :: t in byGroup ==> byGroup[t].keyless.Some? || byGroup[t].keyed != map[]
  }

  lemma StillNoneEmpty(byGroup: ByGroup, group: Group, began: nat)
    requires NoneEmpty(byGroup)
    ensures NoneEmpty(Linked(byGroup, group, began)) && NoneEmpty(Unlinked(byGroup, group))
  {
    var linked := Linked(byGroup, group, began)[group.messageType];
    assert group.key.Some? ==> group.key.value in linked.keyed;
  }

  // The indexes

  datatype Index = Index(byGroup: ByGroup, waitingForIdle: set<nat>, byDue: set<(Time, nat)>, armed: Option<Time>)

  ghost predicate GroupsOk(live: map<nat, Batch>, byGroup: ByGroup) {
    && NoneEmpty(byGroup)
    && (forall b :: b in live ==> Find(byGroup, live[b].group) == Some(b))
    && (forall g :: Find(byGroup, g).Some? ==> Find(byGroup, g).value in live && live[Find(byGroup, g).value].group == g)
  }

  ghost predicate WaitingOk(live: map<nat, Batch>, waitingForIdle: set<nat>) {
    forall b :: b in waitingForIdle <==> b in live && live[b].waitsForIdle
  }

  ghost predicate DueOk(live: map<nat, Batch>, byDue: set<(Time, nat)>) {
    forall d: Time, b :: (d, b) in byDue <==> b in live && live[b].due == Some(d)
  }

  /** At or before the earliest time, and off with none; while the batches due go,
      off though some have a time. */
  ghost predicate TimerOk(armed: Option<Time>, byDue: set<(Time, nat)>, running: bool) {
    && (byDue == {} ==> armed.None?)
    && (byDue != {} && running ==> armed.Some?)
    && (armed.Some? ==> forall d: Time, b :: (d, b) in byDue ==> armed.value <= d)
  }

  ghost predicate IndexOk(live: map<nat, Batch>, index: Index, running: bool) {
    && GroupsOk(live, index.byGroup) && WaitingOk(live, index.waitingForIdle) && DueOk(live, index.byDue)
    && TimerOk(index.armed, index.byDue, running)
  }

  /** A batch out of every index, the timer stopped with the last that has a time. */
  function Without(index: Index, began: nat, batch: Batch): Index {
    var byDue := if batch.due.Some? then index.byDue - {(batch.due.value, began)} else index.byDue;
    Index(Unlinked(index.byGroup, batch.group),
          if batch.waitsForIdle then index.waitingForIdle - {began} else index.waitingForIdle,
          byDue,
          if batch.due.Some? && byDue == {} then None else index.armed)
  }

  lemma WithoutOk(live: map<nat, Batch>, index: Index, began: nat, running: bool)
    requires IndexOk(live, index, running) && began in live
    ensures IndexOk(live - {began}, Without(index, began, live[began]), running)
  {
    var batch := live[began];
    var now := Without(index, began, batch);
    UnlinkedFinds(index.byGroup, batch.group);
    StillNoneEmpty(index.byGroup, batch.group, began);
    hide Find, Unlinked, NoneEmpty;
    assert GroupsOk(live - {began}, now.byGroup);
    if batch.due.Some? {
      assert (batch.due.value, began) in index.byDue;
    }
    assert DueOk(live - {began}, now.byDue);
    assert WaitingOk(live - {began}, now.waitingForIdle);
  }

  /** A batch into the indexes: waiting for a connection, or due, or both. */
  function With(index: Index, began: nat, batch: Batch): Index {
    var byDue := if batch.due.Some? then index.byDue + {(batch.due.value, began)} else index.byDue;
    Index(Linked(index.byGroup, batch.group, began),
          if batch.waitsForIdle then index.waitingForIdle + {began} else index.waitingForIdle,
          byDue,
          if batch.due.Some? && (index.armed.None? || batch.due.value < index.armed.value) then batch.due else index.armed)
  }

  lemma WithOk(live: map<nat, Batch>, index: Index, began: nat, batch: Batch)
    requires IndexOk(live, index, true) && began !in live && Find(index.byGroup, batch.group).None?
    ensures IndexOk(live[began := batch], With(index, began, batch), true)
  {
    var now := With(index, began, batch);
    LinkedFinds(index.byGroup, batch.group, began);
    StillNoneEmpty(index.byGroup, batch.group, began);
    hide Find, Linked, NoneEmpty;
    assert GroupsOk(live[began := batch], now.byGroup);
    assert DueOk(live[began := batch], now.byDue);
    assert WaitingOk(live[began := batch], now.waitingForIdle);
    if batch.due.Some? {
      assert (batch.due.value, began) in now.byDue;
    }
  }

  /** A message more changes no index. */
  lemma SameIndexOk(live: map<nat, Batch>, index: Index, began: nat, batch: Batch)
    requires IndexOk(live, index, true) && began in live
    requires batch == live[began].(records := batch.records, bytes := batch.bytes)
    ensures IndexOk(live[began := batch], index, true)
  {
    hide Find, NoneEmpty;
  }

  // The order of each group's messages

  datatype Message = Message(group: Group, id: nat, body: Body)

  function Messages(group: Group, records: seq<Record>): seq<Message> {
    seq(|records|, i requires 0 <= i < |records| => Message(group, records[i].id, records[i].body))
  }

  /** One group's messages, in order. */
  function Of(messages: seq<Message>, group: Group): seq<Message> {
    if messages == [] then []
    else Of(messages[..|messages| - 1], group) +
         if messages[|messages| - 1].group == group then [messages[|messages| - 1]] else []
  }

  lemma {:induction false} OfConcat(messages: seq<Message>, more: seq<Message>, group: Group)
    ensures Of(messages + more, group) == Of(messages, group) + Of(more, group)
  {
    if more == [] {
      assert messages + more == messages;
    } else {
      var last := |more| - 1;
      assert (messages + more)[..|messages| + last] == messages + more[..last];
      OfConcat(messages, more[..last], group);
    }
  }

  lemma {:induction false} OfMessages(group: Group, records: seq<Record>, g: Group)
    ensures Of(Messages(group, records), g) == if g == group then Messages(group, records) else []
  {
    if records != [] {
      var last := |records| - 1;
      OfMessages(group, records[..last], g);
      assert Messages(group, records)[..last] == Messages(group, records[..last]);
      assert Messages(group, records) == Messages(group, records[..last]) + [Messages(group, records)[last]];
    }
  }

  /** What an open batch holds of a group. */
  ghost function HeldOf(live: map<nat, Batch>, byGroup: ByGroup, group: Group): seq<Message> {
    var found := Find(byGroup, group);
    if found.Some? && found.value in live then Messages(group, live[found.value].records) else []
  }

  /** What left the batches of a group, then what its open batch holds, is what was
      sent of it, in the order it was sent. */
  ghost predicate InOrderOf(live: map<nat, Batch>, byGroup: ByGroup, sent: seq<Message>, gone: seq<Message>) {
    forall g :: Of(gone, g) + HeldOf(live, byGroup, g) == Of(sent, g)
  }

  lemma ClosedInOrder(live: map<nat, Batch>, index: Index, began: nat, sent: seq<Message>, gone: seq<Message>)
    requires GroupsOk(live, index.byGroup) && began in live && InOrderOf(live, index.byGroup, sent, gone)
    ensures var batch := live[began];
            InOrderOf(live - {began}, Unlinked(index.byGroup, batch.group), sent,
                      gone + Messages(batch.group, batch.records))
  {
    hide Unlinked, Of, Messages, HeldOf, GroupsOk;
    var batch := live[began];
    var byGroup := Unlinked(index.byGroup, batch.group);
    var more := Messages(batch.group, batch.records);
    forall g ensures Of(gone + more, g) + HeldOf(live - {began}, byGroup, g) == Of(sent, g) {
      assert Of(gone, g) + HeldOf(live, index.byGroup, g) == Of(sent, g);
      HandedOn(live, index.byGroup, began, gone, g);
    }
  }

  /** What a closed batch held of a group comes after what left before. */
  lemma HandedOn(live: map<nat, Batch>, byGroup: ByGroup, began: nat, gone: seq<Message>, g: Group)
    requires GroupsOk(live, byGroup) && began in live
    ensures var batch := live[began];
            Of(gone + Messages(batch.group, batch.records), g) + HeldOf(live - {began}, Unlinked(byGroup, batch.group), g)
            == Of(gone, g) + HeldOf(live, byGroup, g)
  {
    hide Unlinked, Of, Messages, HeldOf, GroupsOk;
    var batch := live[began];
    OfConcat(gone, Messages(batch.group, batch.records), g);
    OfMessages(batch.group, batch.records, g);
    HeldNow(live, byGroup, began, g);
  }

  /** A batch closed holds nothing of its group any more, and the others what they held. */
  lemma HeldNow(live: map<nat, Batch>, byGroup: ByGroup, began: nat, g: Group)
    requires GroupsOk(live, byGroup) && began in live
    ensures var batch := live[began];
            && HeldOf(live, byGroup, batch.group) == Messages(batch.group, batch.records)
            && HeldOf(live - {began}, Unlinked(byGroup, batch.group), g) == if g == batch.group then [] else HeldOf(live, byGroup, g)
  {
    hide Find, Unlinked, NoneEmpty, Messages;
    var batch := live[began];
    UnlinkedFinds(byGroup, batch.group);
  }

  lemma JoinedInOrder(live: map<nat, Batch>, byGroup: ByGroup, began: nat, record: Record, sent: seq<Message>,
                      gone: seq<Message>)
    requires GroupsOk(live, byGroup) && began in live && InOrderOf(live, byGroup, sent, gone)
    ensures var batch := live[began];
            InOrderOf(live[began := batch.(records := batch.records + [record], bytes := batch.bytes + |record.body|)],
                      byGroup, sent + [Message(batch.group, record.id, record.body)], gone)
  {
    hide Find, NoneEmpty, Of, Messages;
    var batch := live[began];
    var now := live[began := batch.(records := batch.records + [record], bytes := batch.bytes + |record.body|)];
    var message := Message(batch.group, record.id, record.body);
    forall g ensures Of(gone, g) + HeldOf(now, byGroup, g) == Of(sent + [message], g) {
      OfConcat(sent, [message], g);
      OfOne(message, g);
      MessagesMore(batch.group, batch.records, record);
      assert Of(gone, g) + HeldOf(live, byGroup, g) == Of(sent, g);
    }
  }

  lemma OfOne(message: Message, g: Group)
    ensures Of([message], g) == if g == message.group then [message] else []
  {
  }

  lemma MessagesMore(group: Group, records: seq<Record>, record: Record)
    ensures Messages(group, records + [record]) == Messages(group, records) + [Message(group, record.id, record.body)]
  {
  }

  lemma OpenedInOrder(live: map<nat, Batch>, byGroup: ByGroup, began: nat, batch: Batch, sent: seq<Message>,
                      gone: seq<Message>)
    requires GroupsOk(live, byGroup) && began !in live && Find(byGroup, batch.group).None? && batch.records == []
    requires InOrderOf(live, byGroup, sent, gone)
    ensures InOrderOf(live[began := batch], Linked(byGroup, batch.group, began), sent, gone)
  {
    LinkedFinds(byGroup, batch.group, began);
    hide Find, Linked, NoneEmpty, Of;
    var now, linked := live[began := batch], Linked(byGroup, batch.group, began);
    forall g ensures Of(gone, g) + HeldOf(now, linked, g) == Of(sent, g) {
      assert Of(gone, g) + HeldOf(live, byGroup, g) == Of(sent, g);
    }
  }

  lemma AloneInOrder(byGroup: ByGroup, message: Message, sent: seq<Message>, gone: seq<Message>)
    requires InOrderOf(map[], byGroup, sent, gone)
    ensures InOrderOf(map[], byGroup, sent + [message], gone + [message])
  {
    hide Find, Of;
    forall g ensures Of(gone + [message], g) + HeldOf(map[], byGroup, g) == Of(sent + [message], g) {
      OfConcat(sent, [message], g);
      OfConcat(gone, [message], g);
      assert Of(gone, g) + HeldOf(map[], byGroup, g) == Of(sent, g);
    }
  }

  /** With no batch open everything sent has gone; where the last message sent was
      the last to go, everything sent before it, of any group, went before it. */
  lemma GoneBefore(byGroup: ByGroup, sent: seq<Message>, gone: seq<Message>, group: Group)
    requires InOrderOf(map[], byGroup, sent, gone) && sent != [] && gone != []
    requires gone[|gone| - 1] == sent[|sent| - 1]
    ensures Of(gone, group) == Of(sent, group)
    ensures Of(gone[..|gone| - 1], group) == Of(sent[..|sent| - 1], group)
  {
    hide Of, Find;
    assert Of(gone, group) + HeldOf(map[], byGroup, group) == Of(sent, group);
    OfLast(gone, group);
    OfLast(sent, group);
    var last := sent[|sent| - 1];
    SameFront(Of(gone[..|gone| - 1], group), Of(sent[..|sent| - 1], group), if last.group == group then [last] else []);
  }

  lemma SameFront(left: seq<Message>, right: seq<Message>, end: seq<Message>)
    requires left + end == right + end
    ensures left == right
  {
    assert |left| == |right|;
    assert left == (left + end)[..|left|] && right == (right + end)[..|right|];
  }

  lemma OfLast(messages: seq<Message>, group: Group)
    requires messages != []
    ensures var last := messages[|messages| - 1];
            Of(messages, group) == Of(messages[..|messages| - 1], group) + if last.group == group then [last] else []
  {
  }

  // The order batches began

  predicate IsLeast(keys: set<nat>, least: nat) {
    least in keys && forall k :: k in keys ==> least <= k
  }

  ghost function Least(keys: set<nat>): (least: nat)
    requires keys != {}
    ensures IsLeast(keys, least)
  {
    LeastExists(keys);
    var least :| IsLeast(keys, least);
    least
  }

  lemma {:induction false} LeastExists(keys: set<nat>)
    requires keys != {}
    ensures exists least :: IsLeast(keys, least)
    decreases |keys|
  {
    var one :| one in keys;
    var others := keys - {one};
    if others == {} {
      assert keys == {one};
      assert IsLeast(keys, one);
    } else {
      LeastExists(others);
      var least :| IsLeast(others, least);
      assert IsLeast(keys, if one < least then one else least) by {
        assert keys == others + {one};
      }
    }
  }

  ghost function Flushed(batches: map<nat, Batch>): seq<Message>
    decreases |batches|
  {
    if batches == map[] then []
    else
      var least := Least(batches.Keys);
      Smaller(batches, least);
      Messages(batches[least].group, batches[least].records) + Flushed(batches - {least})
  }

  lemma Smaller(batches: map<nat, Batch>, k: nat)
    requires k in batches
    ensures |batches - {k}| < |batches|
  {
    assert (batches - {k}).Keys == batches.Keys - {k};
    assert |(batches - {k}).Keys| < |batches.Keys|;
  }

  function Restricted(batches: map<nat, Batch>, keys: set<nat>): map<nat, Batch> {
    map b | b in batches && b in keys :: batches[b]
  }

  lemma FlushedNone()
    ensures Flushed(map[]) == []
  {
  }

  lemma FlushedFirst(batches: map<nat, Batch>, first: nat)
    requires first in batches && forall k :: k in batches ==> first <= k
    ensures Flushed(batches) == Messages(batches[first].group, batches[first].records) + Flushed(batches - {first})
  {
  }

  lemma FlushedStep(batches: map<nat, Batch>, keys: set<nat>, first: nat)
    requires first in keys && forall k :: k in keys ==> first <= k
    ensures first in batches ==>
      Flushed(Restricted(batches, keys))
      == Messages(batches[first].group, batches[first].records) + Flushed(Restricted(batches - {first}, keys - {first}))
    ensures first !in batches ==> Restricted(batches, keys) == Restricted(batches, keys - {first})
  {
    hide Flushed;
    if first in batches {
      var now := Restricted(batches, keys);
      FlushedFirst(now, first);
      assert now - {first} == Restricted(batches - {first}, keys - {first});
    }
  }
}
