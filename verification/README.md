# A verified model of the multiplexer's client and index state machines

The multiplexer is a TCP message broker with client libraries. This project models
the parts of it that keep several structures in agreement while messages,
confirmations, losses and timers come in any order, and the fast forms that stand
for simple ones. `dafny verify dfyconfig.toml` checks all of it.

| files | what they model |
|---|---|
| `Common` | what several modules name |
| `NumberPairs` | the (first, count) pairs that carry message numbers, written and read |
| `ResolvedFlags`, `Words` | one flag a message, 64 to a word, and the word operations |
| `Confirming*`, `Confirmer`, `ConfirmedLedger`, `RetryTimes` | confirmed sends: a producer's batches, runs, times and ends; `Confirmer` is the class, `ConfirmedLedger` what a program sees of every history of its operations, `RetryTimes` when each message goes again |
| `BatchFrames`, `BatchIndex`, `BatchTimes`, `Batching` | batches made into frames, the open batches and their indexes, the order and the bodies of messages, and when each is handed on |
| `Receiver`, `SpanSet` | the receiver's split of a batch, its queue, and the set of ids seen |
| `Routing` | the acknowledgement of a routing change over many connections |
| `KeyItems`, `TypeIndex`, `KeyIndex`, `KeyPatterns` | the multiplexer's index of key filters |
| `Crc32`, `Xxh3` | the two digests |
| `Query` | a client's query and its stages |
| `ExitHandshake`, `DescriptorTable` | threads against the interpreter's exit; the table a forked child reads |

Objects that the source updates in place are classes with a `Valid()` invariant that
every operation keeps, so an invariant or a postcondition holds after every history of
operations. What the environment decides (the clock, random ids, the outcome of a send,
what a peer writes, whether RE2 compiles a pattern or runs out of memory) is a parameter
or a nondeterministic choice.

## What turned out not to hold

Each is a lemma or method with a concrete case, next to the condition under which it
holds.

- A confirmation's pair that ends at 2^64 names nothing to the producer that reads it.
  A list names exactly the gathered numbers if and only if 2^64 - 1 is not among them
  (`NumberPairs.ConfirmationNames`, `NumberPairs.LastWordNamesNothing`).
- An unconfirmed batch cut down to one message sends that message with an empty body:
  the body is in the envelope that is not sent. All bodies of a batch arrive, in order, if
  and only if no frame of it begins where two or more messages are left that do not fit,
  the bodies past the first two are less than what is over, and the first body is not
  empty and has no other holder; where frames begin is told from the batch before it goes
  (`BatchFrames.SendBatch`, `BatchFrames.BodyIsLost`). A confirmed batch loses none.
- A routing change may be acknowledged and a message routed before it be queued
  afterwards: a connection is read on after a failed write, when it no longer counts.
  Nothing older is queued unless something there was read on such a connection that had
  not confirmed the change (`Routing.Client.RoutingAcknowledged`, `Routing.LateMessage`).
- A message written with a retry time is not always sent again by it: a confirmation of
  another message of its batch, or a delivery error, sets the batch's time anew
  (`RetryTimes.HeldBack`). It goes again when the timer fires if and only if its batch's own
  time has come (`RetryTimes.FiredExactly`), and so by the time set last
  (`RetryTimes.GoesAgain`).
- A message of an unconfirmed batch whose id was seen may be queued again: the messages
  before it in the batch can push the id out of the set (`Receiver.SeenTakenAgain`). It is
  dropped as long as the set has room for those (`Receiver.SeenNotTaken`), and no id is queued
  again before as many ids more as the set holds were taken (`Receiver.NotQueuedTwice`).

## Model

| member | source | states |
|---|---|---|
| `NumberPairs.RoundTrip` | multiplexer/basic_client_confirm.cc:60-78 | the pairs written for any non-zero numbers, consecutive or not, stand for exactly those numbers in order, and no pair is empty or runs past the last word |
| `NumberPairs.GiveNumbers` | multiplexer/basic_client.cc:183-195 | the receiver's walk gives message i the i-th number the pairs stand for, and 0 once they run out, whatever the pairs |
| `NumberPairs.ConfirmationNames` | multiplexer/basic_client_confirm.cc:511-535 | what a consumer writes of the numbers it gathered names exactly those numbers to the producer, if and only if 2^64 - 1 is not among them |
| `NumberPairs.LastWordNamesNothing` | multiplexer/basic_client_confirm.cc:511-535 | the pair of the number 2^64 - 1 names no number |
| `ResolvedFlags.ResolvedFlags.SetRange` | multiplexer/confirming.h:34-46 | a range of any alignment sets exactly its flags, each flag afterwards set if it was or the range holds it, and counts those that were clear, by masks and population counts of whole words |
| `ResolvedFlags.ResolvedFlags.Set` | multiplexer/confirming.h:32-32 | one flag set and no other |
| `ResolvedFlags.ResolvedFlags.Get` | multiplexer/confirming.h:31-31 | the flag of a message out of its word |
| `ResolvedFlags.ResolvedFlags.Assign` | multiplexer/confirming.h:30-30 | enough words, every flag clear |
| `Confirmer.Confirmer.constructor` | multiplexer/confirming.h:119-152 | the structures of a new client agree, with no number given |
| `Confirmer.MakeBatch` | multiplexer/basic_client_confirm.cc:109-143 | the batch waits for the frame's messages: a first number and a count stand for them when they are consecutive, each its own otherwise, and the followed ones are kept; its deadline, retry_after, back-off and connection are those it goes with, and it is not written |
| `Confirmer.Confirmer.Numbered` | multiplexer/basic_client_confirm.cc:93-102 | a message without a number gets the next one, one sent again keeps its own |
| `Confirmer.Confirmer.WaitForConfirmation` | multiplexer/basic_client_confirm.cc:109-162 | the numbers on their way are waited for in the new batch, indexed by its runs and its time |
| `Confirmer.Confirmer.CannotConfirm` | multiplexer/basic_client_confirm.cc:198-207 | messages no envelope could hold end as not confirmed |
| `Confirmer.Confirmer.SendBatch` | multiplexer/basic_client_batching.cc:398-490 | every message sent is waited for in a batch made with the send's terms, each held in one place at every moment; one ends without having gone only if a frame made in the call could not be |
| `Confirmer.Confirmer.RebuildRuns` | multiplexer/basic_client_confirm.cc:212-255 | the batch's unresolved numbers are each in exactly one run, at the batch and index it gives, with exact counts, and the other batches' runs stay |
| `Confirmer.Confirmer.FrameWritten` | multiplexer/basic_client_confirm.cc:261-276 | a frame written only moves its own batch's retry time, to retry_after from then unless an earlier one is set, and its place among those due; one not written ends what is left of its batch; no other batch is touched |
| `Confirmer.Confirmer.FrameDropped` | multiplexer/basic_client_confirm.cc:282-292 | the batch is gone and exactly the numbers it held stop being waited for, ended for the reason given |
| `Confirmer.Confirmer.Resolved` | multiplexer/basic_client_confirm.cc:298-311 | one message ends unless it had, with the counters and the ends owed |
| `Confirmer.Confirmer.ResolveMessages` | multiplexer/basic_client_confirm.cc:549-575 | resolving one message at a time is the range's resolution, and counts those that were not |
| `Confirmer.Confirmer.ResolveUnfollowed` | multiplexer/basic_client_confirm.cc:549-575 | the bulk path leaves the flags, the counters and the ends exactly as one message at a time does, whatever part of the range was resolved before |
| `Confirmer.Confirmer.ForgetResolved` | multiplexer/basic_client_confirm.cc:322-337 | a batch with nothing left leaves every index |
| `Confirmer.Confirmer.SendAgain` | multiplexer/basic_client_confirm.cc:344-397 | the messages go again under their own numbers, in new batches with their deadline, retry_after and back-off, each placed on the connection its frame went by; the batch they leave is otherwise as it was; past the deadline they end as not confirmed; before it one ends only if a frame did not work, in that call |
| `Confirmer.Confirmer.ConfirmingDue` | multiplexer/basic_client_confirm.cc:412-431 | the due time is the earlier of the deadline and, for a batch written, the retry time, said of the batch's own fields; its index and the timer agree with it |
| `Confirmer.Confirmer.TimerFired` | multiplexer/basic_client_confirm.cc:474-505 | a batch is gone after it exactly if its deadline, or, written, its retry time, had come, and every other batch and number is as it was; where every frame works, each number of those that is before its deadline is waited for in a batch made since; those past it ended |
| `Confirmer.Confirmer.OneDue` | multiplexer/basic_client_confirm.cc:489-502 | a batch whose time came is gone and no other is touched; a number of it ended only if past its deadline or if a frame did not work, in that call, and waits on with the same deadline otherwise |
| `Confirmer.Confirmer.Segments` | multiplexer/basic_client_confirm.cc:511-535 | the segments found lie in the runs and are named by the list, and every number waited for that the list names is in one |
| `Confirmer.Confirmer.ResolvedInRun` | multiplexer/confirming.h:153-166 | the run a number is in counts down and goes with its last |
| `Confirmer.Confirmer.OnConfirmation` | multiplexer/basic_client_confirm.cc:542-602 | for lists of any content, overlapping and repeated: exactly the waited-for numbers named processed end so, else those named failed end failed; where every frame works each other number, refused or not, is waited for until its deadline, a refused one in a batch under a new id; each batch keeps all but its flags, its runs and, if the lists end a message of it, its times |
| `Confirmer.Confirmer.HeardOf` | multiplexer/basic_client_confirm.cc:585-601 | of the batches heard of, those with nothing left are gone and the others' back-off and retry times start anew; every other batch is exactly as it was |
| `ConfirmingHeard.ConfirmedAll` | multiplexer/basic_client_confirm.cc:542-602 | through all the stages of a CONFIRMATION a batch none of whose waited-for numbers is named is as it was, but for its runs |
| `Confirmer.Confirmer.BatchNotTaken` | multiplexer/basic_client_confirm.cc:607-619 | a delivery error moves that batch's retry time by its back-off, which doubles to its bound, and its place among those due; nothing ends and no other batch is touched |
| `Confirmer.Confirmer.ConnectionClosed` | multiplexer/basic_client_confirm.cc:635-656 | of the batches placed on the connection exactly those written are gone; where every frame works, their numbers before their deadline are waited for in batches made since; the others stay as they were without a connection, and batches placed elsewhere are untouched |
| `Confirmer.Confirmer.GiveUpConfirmations` | multiplexer/basic_client_confirm.cc:661-679 | every number waited for ends for the reason, and nothing is kept |
| `Confirmer.Confirmer.ConfirmingUpTo` | multiplexer/basic_client_confirm.cc:681-683 | for every mark a flush can take, true exactly while a number up to it is waited for, that is, has not ended, though a run keeps the number of a message long ended as its key: no batch has numbers on both sides of a mark |
| `Confirmer.Confirmer.ConfirmMark` | multiplexer/basic_client_confirm.cc:685-685 | the mark a flush takes is the last number given, between operations |
| `Confirmer.Confirmer.RunEnds` | multiplexer/basic_client_confirm.cc:690-700 | every followed number that ended is told of once, with how it ended |
| `Confirmer.Confirmer.Send` | multiplexer/basic_client_batching.cc:398-490 | a first send gives each message the next number and, where every frame works, each is waited for with the send's deadline in a batch made with its terms; one ends at once only if a frame did not work, in that call; the last number given is a mark afterwards |
| `RetryTimes.GoesAgain` | multiplexer/basic_client_confirm.cc:412-505 | in every history, a number whose batch was written at w, and is neither named nor dropped nor past its deadline, is in a batch made since once the timer fires at w + retry_after or later with no frame broken, unless the batch's times were set anew; set anew at h it goes by h + retry_after, or within the longest back-off of a delivery error |
| `RetryTimes.FiredExactly` | multiplexer/basic_client_confirm.cc:474-505 | the timer moves a number to another batch exactly if its batch's deadline or, written, its retry time has come |
| `RetryTimes.HeldBack` | multiplexer/basic_client_confirm.cc:585-601 | a batch to go again at 10, a message of which is confirmed at 5 with retry_after 10: fired at 10 the timer leaves the others where they are |
| `ConfirmedLedger.NothingLost` | multiplexer/basic_client_confirm.cc:93-207 | in every history the numbers 1 to the last given are the disjoint union of those waited for and those ended, from what each event by itself may give, keep and end |
| `ConfirmedLedger.EndsOnce` | multiplexer/basic_client_confirm.cc:298-397 | a number ends at one event only, and that event calls for that end: processed only when a confirmation names it so |
| `ConfirmedLedger.EndsStay` | multiplexer/basic_client_confirm.cc:298-311 | an end is for good |
| `ConfirmedLedger.DeadlineSentWith` | multiplexer/basic_client_confirm.cc:344-397 | however often a number went again, the deadline it waits with is that of the one send that gave it |
| `ConfirmedLedger.NotBeforeItsDeadline` | multiplexer/basic_client_confirm.cc:344-397 | in every history, a number told of as not confirmed, other than with its frame or at the shutdown, was past the deadline of the send that gave it, unless a frame did not work at that very event |
| `ConfirmedLedger.WaitsUntilItsDeadline` | multiplexer/basic_client_confirm.cc:344-397 | in every history, a message sent where frames work is waited for, however often it was refused, lost or due, until its deadline passes, a CONFIRMATION names it processed or failed, its frame is dropped, a frame does not work or the client shuts down |
| `ConfirmedLedger.NothingUnsendable` | multiplexer/basic_client_confirm.cc:198-207 | in a history where frames work nothing ends for want of one |
| `ConfirmedLedger.ConfirmedEnds` | multiplexer/basic_client_confirm.cc:542-602 | a number a consumer gathered as processed ends processed unless it had ended before |
| `ConfirmedLedger.NothingWaits` | multiplexer/basic_client_confirm.cc:661-679 | after the shutdown nothing is waited for |
| `BatchFrames.EnvelopeShrinks` | multiplexer/basic_client_batching.cc:423-441 | cutting messages off an envelope shortens it on the wire by at least their bodies, length prefixes and packed numbers included |
| `BatchFrames.FitsAsNeeded` | multiplexer/basic_client_batching.cc:428-441 | how many messages an envelope is cut to: all where they fit, else the most whose bodies after them cover what is over, or one |
| `BatchFrames.CutExcess` | multiplexer/basic_client_batching.cc:430-437 | the last messages cut cover what is over or leave one, as few as that takes, each body back with its message; one is left exactly when the bodies past the first two are less than what is over |
| `BatchFrames.CutToFit` | multiplexer/basic_client_batching.cc:423-441 | the envelope ends within its bound or with one message; what fits is not cut, and what is over is cut by as few messages as their bodies take to cover it, numbers or none; the outer loop runs at most once: its passes are counted |
| `BatchFrames.NextFrame` | multiplexer/basic_client_batching.cc:399-482 | the next frame holds the first messages left with their bodies and numbers, all where they fit and else as many as the cut leaves, or the first alone, or they are given up on; the messages after have their bodies again |
| `BatchFrames.SendBatch` | multiplexer/basic_client_batching.cc:383-528 | the frames of a batch hold each of its messages once, in order, and begin where the sizes alone tell, confirmed or not; one that fits goes in one envelope; a confirmed message arrives with its body or is given up on, and all do where envelopes can be made; the bodies of an unconfirmed batch all arrive if and only if no frame begins where the cut leaves one message with a body of its own |
| `BatchFrames.BodyIsLost` | multiplexer/basic_client_batching.cc:428-482 | two messages of 40 bytes, 100 bytes at most: whatever is handed over first is the first message with nothing in it |
| `BatchIndex.WithOk` | multiplexer/basic_client_batching.cc:260-287 | a batch opened is in every index it belongs in, and the timer at or before the earliest time |
| `BatchIndex.WithoutOk` | multiplexer/basic_client_batching.cc:351-381 | a batch closed is in none, and the timer off with the last that has a time |
| `BatchIndex.GoneBefore` | multiplexer/basic_client_plain.cc:33-104 | where the message sent last was the last handed on and no batch is open, everything sent before it, of any group, was handed on before it |
| `Batching.Batcher.Submit` | multiplexer/basic_client_batching.cc:225-301 | a message joins its group's open batch where it has room and is the last of it afterwards, unless that leaves no room for another: then the batch has gone; without such a batch it goes alone, after every batch, exactly when its delivery or a free connection calls for that, or into a batch opened for it; it is handed on with its body, or in a batch that goes no later than its delay, or its timeout with none; each group's messages leave in the order sent, open batches keep room, frames keep their bounds, the indexes agree |
| `Batching.Batcher.SendPlain` | multiplexer/basic_client_plain.cc:33-69 | the same for a plain event by what is set for its key or type; with nothing set it goes alone, with its body, after every batch |
| `Batching.JoinedOrGone` | multiplexer/basic_client_batching.cc:290-300 | a message that joins a batch is the last of it, nothing else having gone, or the batch is full and the message went with it; batches that do not wait for a connection are as they were |
| `Batching.ArriveInOrder` | multiplexer/basic_client_batching.cc:383-528 | what arrives of all the frames is, one for one and in order, what was handed on, with its body, empty or not at all, and always with its body where nothing is confirmed and each message goes by itself |
| `BatchTimes.GoneInTime` | multiplexer/basic_client_batching.cc:260-287 | in every history of sends, timers, idle connections and changes of delivery, a message sent has been handed on once the timer fires at its delay from then, or its timeout with no delay, or later |
| `BatchTimes.GoneWhenIdle` | multiplexer/basic_client_batching.cc:610-623 | one sent with no delay has been as soon as some connection is idle |
| `Batching.Batcher.CloseBatches` | multiplexer/basic_client_batching.cc:317-328 | every batch goes, in the order they began |
| `Batching.Batcher.CloseOnItsOwn` | multiplexer/basic_client_batching.cc:335-346 | a batch goes with those that wait for a connection, in the order they began, and no other |
| `Batching.Batcher.CloseBatch` | multiplexer/basic_client_batching.cc:351-381 | a batch leaves every index and its messages are handed on after what went before |
| `Batching.Batcher.CloseIdleBatches` | multiplexer/basic_client_batching.cc:610-623 | every batch waiting for idleness goes, oldest first, and none is left waiting |
| `Batching.Batcher.TimerFired` | multiplexer/basic_client_batching.cc:652-667 | with a batch due, exactly those due and those that wait for a connection go, and the others are as they were; with none due nothing changes; the timer runs to the next |
| `Batching.Batcher.Arm` | multiplexer/basic_client_batching.cc:626-648 | the timer is at or before the earliest time, and off with none |
| `Batching.Batcher.SetDelivery` | multiplexer/basic_client_batching.cc:62-107 | refused with nothing changed for a protocol type, a key too long or bounds out of range, else set once every batch has gone; what is set for other types and keys stays, and a key with a setting of its own keeps that when its type's is set |
| `Batching.Batcher.ClearDelivery` | multiplexer/basic_client_batching.cc:109-124 | every batch gone, and the setting with the type's keys, or the one key's; other types and keys keep theirs |
| `Receiver.PackThenSplit` | multiplexer/basic_client.cc:169-268 | a confirmed envelope the sender makes of events of one group, split by a receiver with room, hands out every message in order, each with its own number, resent ones included, and fails none |
| `Receiver.PackThenSplitPlain` | multiplexer/basic_client.cc:169-268 | the same for an envelope without numbers, of messages under ids of their own that were not seen |
| `Receiver.EnvelopePasses` | multiplexer/basic_client.cc:171-172 | an envelope made by batching passes the receiver's checks of type and count |
| `Receiver.Receiver.SplitBatch` | multiplexer/basic_client.cc:169-268 | a batch that does not split, for its type, its parsing or its size, changes nothing; a full queue drops it whole and its id is not seen; else the belonging messages are taken in order with their numbers, those unconfirmed unless seen, and the others confirmed as failed; each message queued without a number has an id taken for it |
| `Receiver.Receiver.Parse` | multiplexer/basic_client.cc:180-217 | the messages of the batch's type and key with the numbers the pairs give them, in order, and the numbers of the rest |
| `Receiver.Receiver.HandleMessage` | multiplexer/basic_client.cc:58-111 | a message without an id or seen is dropped; one a full queue drops is not seen, so that its copy is taken; a new one is queued, or its batch split into exactly the messages that belong, in order; over every history the ids taken keep apart by what the set holds |
| `Receiver.NotQueuedTwice` | multiplexer/basic_client.cc:81-84 | over everything ever queued, a message without a number is not queued again under an id before as many ids more as the set holds were taken |
| `Receiver.SplitTakes` | multiplexer/basic_client.cc:169-268 | each message of a batch with a number is queued, and each other unless one of its id was seen or came before it in the batch |
| `Receiver.SplitTakesOnly` | multiplexer/basic_client.cc:180-217 | and nothing is that is not a plain event under an id, of the batch's type and key, with the number of its place |
| `Receiver.FailedAre` | multiplexer/basic_client.cc:201-213 | the numbers confirmed as failed are exactly those of bodies that are no such event |
| `Receiver.SeenNotTaken` | multiplexer/basic_client.cc:253-255 | one without a number under an id seen is dropped while the set has room for the messages of the batch before it |
| `Receiver.SeenTakenAgain` | multiplexer/basic_client.cc:253-255 | and is queued again where those push its id out of the set |
| `Receiver.Receiver.QueueIncoming` | multiplexer/basic_client.cc:113-135 | queued in order, or dropped by a full queue and forgotten |
| `SpanSet.SpanSet.Insert` | lib/spanset.h:37-58 | answers whether the value is not among the last remembered, and remembers it, the oldest forgotten when full |
| `SpanSet.SpanSet.ForgetLast` | lib/spanset.h:64-69 | the last value inserted is forgotten and no other |
| `SpanSet.SpanSet.Erase` | lib/spanset.h:93-109 | after the backward shift every other value is still found by its probe and none is there twice |
| `SpanSet.SpanSet.Probe` | lib/spanset.h:39-44 | a probe ends, at the value or at an empty slot its probe passes to |
| `SpanSet.SlotsPower` | lib/spanset.h:74-82 | the table's size is a power of two for every capacity |
| `SpanSet.NextMasked` | lib/spanset.h:39-39 | on such a table the slot after one, round its end, is what the mask leaves of the sum |
| `SpanSet.DistMasked` | lib/spanset.h:103-103 | and the way between two slots is what it leaves of their 64-bit difference |
| `SpanSet.RemembersTheLast` | lib/spanset.h:24-36 | for every sequence of uses the list is the last distinct values taken, in order, at most as many as set |
| `Routing.Client.RoutingAcknowledged` | multiplexer/basic_client_routing.cc:177-180 | when it holds, nothing routed under another version is on its way on any living connection, and everything queued was routed by the rules in effect unless something queued was read on after a failed write on a connection that had not confirmed them; it holds only where every living connection's multiplexer took a welcome with the version or was read to answer the last request with the rules in effect, and it does once they all have and what was queued when that last changed has been taken out |
| `Routing.Client.RoutingChanged` | multiplexer/basic_client_routing.cc:64-76 | a new version, told exactly once, under an id not used before, to every living registered connection that takes it and to no other; confirmed only with every connection confirmed |
| `Routing.Client.SendRouting` | multiplexer/basic_client_routing.cc:81-98 | one request under a new id on one connection, written exactly if its outbox takes it |
| `Routing.Client.OnPeerStatus` | multiplexer/basic_client_routing.cc:105-119 | only the answer to the last request, with the rules in effect, confirms, and then nothing older is on its way there, on a connection that ended too |
| `Routing.Client.AreAllConfirmed` | multiplexer/basic_client_routing.cc:121-137 | every living connection registered and confirmed, a handshake in flight counting as not; they count so exactly if their multiplexers said so |
| `Routing.Client.UpdateConfirmation` | multiplexer/basic_client_routing.cc:147-160 | the count noted is the queue's when every connection came to be confirmed |
| `Routing.Client.Connected` | multiplexer/basic_client_connect.cc:27-45 | the welcome carries the version of then |
| `Routing.Client.Registered` | multiplexer/basic_client.h:796-805 | the welcome confirms what it carried, and a change made meanwhile is told |
| `Routing.Client.ConnectionDestroyed` | multiplexer/basic_client_connect.cc:83-120 | a connection gone no longer counts; after a failed write it is read on, told of no change since |
| `Routing.Client.HandleMessage` | multiplexer/basic_client.cc:58-135 | what is read from a confirmed connection, living or read on, was routed by the rules in effect |
| `Routing.Client.NextIncomingMessage` | multiplexer/basic_client.cc:485-493 | the oldest message, counted out |
| `Routing.LateMessage` | multiplexer/io/connection.h:367-410 | a run in which the change is acknowledged and a message routed before it is queued |
| `Routing.ChangeAcknowledged` | multiplexer/basic_client_routing.cc:105-180 | a run that ends acknowledged with a living connection: told, applied, answered, and what came before taken out |
| `KeyItems.DecodeExact` | multiplexer/key_filters.cc:170-195 | the loop decodes exactly the literal patterns |
| `KeyItems.OneCharacter` | multiplexer/key_filters.cc:187-191 | a character by itself is a literal pattern exactly if it is ASCII and none of RE2's operators |
| `KeyItems.OneEscaped` | multiplexer/key_filters.cc:177-186 | one after a backslash exactly if it is ASCII and no letter, digit or underscore |
| `KeyItems.PartByPart` | multiplexer/key_filters.cc:170-195 | a pattern made of literal parts has the key made of theirs |
| `KeyItems.OnlyOfParts` | multiplexer/key_filters.cc:170-195 | and every literal pattern is made of such |
| `KeyItems.ExactOfEscaped` | multiplexer/key_filters.cc:170-195 | a key escaped decodes to itself |
| `KeyItems.ExactKeysAreAscii` | multiplexer/key_filters.cc:170-195 | the keys with an exact pattern are exactly the ASCII ones without a zero |
| `TypeIndex.RemoveOne` | multiplexer/key_filters.cc:51-60 | one occurrence gone, the others kept as often |
| `TypeIndex.TakePattern` | multiplexer/key_filters.cc:261-284 | the pattern lists the owner once more and nothing else changes; a slot is used exactly with a text, a regex and a holder, recycled or new |
| `TypeIndex.GiveBackPattern` | multiplexer/key_filters.cc:296-316 | the pattern lists the owner once less and nothing else changes; the last holder frees the slot |
| `TypeIndex.Build` | multiplexer/key_filters.cc:99-142 | the set, where built, is of the used slots' texts, each with its slot |
| `KeyIndex.FoundIsDeclared` | multiplexer/key_filters.cc:329-365 | the owners a match finds for a type are those a scan of their declared filters finds |
| `KeyPatterns.KeyPatterns.AddOwner` | multiplexer/key_filters.cc:148-159 | a number nobody has, with no filters |
| `KeyPatterns.KeyPatterns.RemoveOwner` | multiplexer/key_filters.cc:161-168 | its declarations out of the index and its number free; an unknown number changes nothing |
| `KeyPatterns.KeyPatterns.Check` | multiplexer/key_filters.cc:197-233 | refuses exactly a protocol type, a second filter of a type, a pattern too long or one that does not compile; every other pattern is in its slot or compiled |
| `KeyPatterns.KeyPatterns.SetFilters` | multiplexer/key_filters.cc:197-250 | a refusal changes nothing; else the index lists each owner once for each declared occurrence of each pattern |
| `KeyPatterns.KeyPatterns.Take` | multiplexer/key_filters.cc:252-286 | the owner holds the filters as well |
| `KeyPatterns.KeyPatterns.GiveBack` | multiplexer/key_filters.cc:288-321 | the owner holds them no more, and a type nobody filters leaves the index |
| `KeyPatterns.KeyPatterns.Match` | multiplexer/key_filters.cc:329-365 | false exactly when nobody filters the type; else the stamps say of each owner what the scan of its declared filters says, by the exact keys, the set or one by one |
| `KeyPatterns.KeyPatterns.OwnerTakes` | multiplexer/key_filters.h:82-96 | stamped by the match, or without a filter for the type |
| `KeyPatterns.NothingLeft` | multiplexer/key_filters.cc:288-321 | with no owner left the index is empty |
| `Crc32.BuildTables` | lib/crc32.cc:31-45 | entry i of table k is i advanced by k + 1 bytes of zeros |
| `Crc32.Crc32` | lib/crc32.cc:58-73 | for every string of bytes, the bit-by-bit CRC-32 of section 8 of RFC 1952 |
| `Crc32.UpdateEight` | lib/crc32.cc:61-68 | eight bytes fold in at once, by the linearity of a step over exclusive or |
| `Crc32.Residue` | lib/crc32.cc:58-73 | bytes followed by their own digest have one digest, that of four zeros, whatever they are |
| `Crc32.PolynomialIs` | lib/crc32.cc:31-45 | the polynomial has the terms of the CRC-32 generator, bit by bit reversed |
| `Xxh3.HashLong` | lib/xxh3.cc:222-262 | for every body over 240 bytes the two chains give the one-chain XXH3 value, every read within the body and the secret, by either path |
| `Xxh3.StripedJoined` | lib/xxh3.cc:226-239 | a stripe mixed into either chain is a stripe mixed into their sum |
| `Xxh3.Stripes` | lib/xxh3.cc:233-254 | even and odd stripes summed apart and joined are the stripes one after another |
| `Xxh3.StripePortable` | lib/xxh3.cc:264-272 | the lane loop adds each lane's product and its partner's bytes |
| `Xxh3.StripeSse2` | lib/xxh3.cc:303-313 | the SSE2 stripe equals the portable one lane for lane |
| `Xxh3.ScramblePortable` | lib/xxh3.cc:274-281 | each lane scrambled |
| `Xxh3.ScrambleSse2` | lib/xxh3.cc:315-326 | the SSE2 scramble equals the portable one lane for lane modulo 2^64 |
| `Xxh3.CombinePortable` | lib/xxh3.cc:283-288 | the odd sums added in and started again |
| `Xxh3.CombineSse2` | lib/xxh3.cc:328-335 | the same two lanes at a time |
| `Xxh3.MultiplyFold` | lib/xxh3.cc:102-118 | four 32-bit products give the 128-bit product's halves xored |
| `Xxh3.AvalancheUndone` | lib/xxh3.cc:222-262 | the last mixing loses nothing: its inverse gives the sum back |
| `Xxh3.ScrambleUndone` | lib/xxh3.cc:274-281 | nor does the scramble of a lane |
| `Query.Query.Receive` | multiplexer/client_query.cc:427-472 | reads up to the first event that is a message for an accepted id, the end of the time or the loss of the connection watched, and returns that; what is for none is dropped, acknowledgements passed over, and the trackers follow what was read |
| `Query.Query.Await` | multiplexer/client_query.cc:355-398 | the wait ends by the first event read that ends its stage, with what that event says: a reply to any attempt that is out is the answer in every stage; a refusal of the stage's own attempt, a PING, the last connection's nobody or the last open attempt's delivery error by their stages; timed out only when the time ended; attempts are struck off exactly for the delivery errors read |
| `Query.PingFinds` | multiplexer/client_query.cc:390-397 | a PING for the search is the last event of its wait, and finds its sender |
| `Query.ReplyEnds` | multiplexer/client_query.cc:355-376 | a reply to an attempt that is out is the last event of the wait it is read in, whatever the stage |
| `Query.ErrorRefuses` | multiplexer/client_query.cc:377-389 | a delivery error for the attempt sent last ends the request's wait and the second's, as refused |
| `Query.NobodyFound` | multiplexer/client_query.cc:390-397 | the last delivery error of the connections searched ends the search |
| `Query.ErrorsLeaveNobody` | multiplexer/client_query.cc:377-389 | delivery errors for all the attempts somebody had end the last wait |
| `Query.TimeEnds` | multiplexer/client_query.cc:427-472 | the end of the time or of the connection watched ends any wait, with that outcome |
| `Query.OutcomeBecause` | multiplexer/client_query.cc:355-398 | each outcome has the event of the tape that calls for it |
| `Query.Query.HeedError` | multiplexer/client_query.cc:377-389 | a delivery error strikes its attempt off and ends the stage it is the last attempt of, or the last wait it leaves nobody in |
| `Query.Query.HeedSearch` | multiplexer/client_query.cc:390-397 | a PING ends the search; a delivery error counts its connection off once and ends it with the last; anything else is nothing |
| `Query.Query.LateWait` | multiplexer/client_query.cc:410-422 | waits for exactly the attempts no delivery error was read for and that are out; fails exactly with none of those left, at once or in the wait |
| `Query.Query.QueryTyped` | multiplexer/client_query.cc:104-189 | the stages follow one another as their waits end, from the first event to the last read; the request goes out a second time exactly once an instance is found; the first reply read to an attempt is the answer, else there was none; timed out, not connected and failed each only for their cause |
| `Query.Query.QueryAddressed` | multiplexer/client_query.cc:204-253 | the same, but that a request timed out is not searched for, and nobody but the addressee is sent the request |
| `Query.Query.TimedOutSearched` | multiplexer/client_query.cc:125-146 | a query by type that timed out had searched |
| `Query.Query.FailedBecause` | multiplexer/client_query.cc:410-422 | a query fails only with each attempt come back as a delivery error, never placed or given up on, and no reply read |
| `Query.Query.SearchOn` | multiplexer/client_query.cc:154-188 | what the search leads to: a second attempt for the instance found or the addressee, by the connection it answered on while that lives, or the last wait once every connection searched said nobody |
| `Query.Query.SendSearch` | multiplexer/client_query.cc:302-316 | the search goes once by every living connection, or by the pinned one alone, under an id of its own |
| `Query.Query.SendAttempt` | multiplexer/client_query.cc:286-291 | the attempt recorded under an id of its own before it is sent, with the connection preferred and what its tracker says |
| `Query.Query.StrikeGivenUp` | multiplexer/client_query.cc:82-88 | the attempts given up on or never placed struck off, and no other |
| `Query.StateTold` | multiplexer/client_query.cc:82-88 | the tracker of a queued attempt says what the tape tells of it first, and nothing before |
| `Query.Query.AnsweredFrom` | multiplexer/client_query.cc:90-98 | one entry of a connection taken from those waited for, the others and their order kept |
| `Query.NeverBack` | multiplexer/client_query.cc:139-146 | in every query a stage comes after an earlier one only |
| `Query.LateWithoutSecond` | multiplexer/client_query.cc:154-163 | a last wait without a second attempt follows a search that every connection answered with nobody |
| `ExitHandshake.NobodyIsCaught` | multiplexer/_native.cc:69-155 | in every interleaving, once the count was read as zero no thread but the finalizing one is inside a callback or takes the GIL again, then or later, and the count is that of the slots claimed |
| `ExitHandshake.Always` | multiplexer/_native.cc:106-155 | the counter equals the claimed slots in every state of every run |
| `ExitHandshake.OnlyThosePast` | multiplexer/_native.cc:85-155 | in every interleaving, given up on or not, a thread but the finalizing one that is past its check was past the flag when that was raised, and ever since |
| `ExitHandshake.GetsIn` | multiplexer/_native.cc:85-155 | before an exit a thread that claims a slot gets past its check |
| `ExitHandshake.GivenUpIsNotSafe` | multiplexer/_native.cc:1294-1305 | a run in which the bound on the wait ends it with a callback inside |
| `DescriptorTable.DescriptorTable.Add` | multiplexer/descriptor_table.cc:24-42 | a child forked after any store reads exactly the descriptors before or those with the new one, growth included |
| `DescriptorTable.DescriptorTable.Remove` | multiplexer/descriptor_table.cc:44-51 | a child forked after any store reads exactly the descriptors before or those without it |
| `DescriptorTable.DescriptorTable.CloseAll` | multiplexer/descriptor_table.cc:53-61 | closes exactly what the block current at the fork records |
| `DescriptorTable.DescriptorTable.Capacity` | multiplexer/descriptor_table.cc:63-63 | at most the larger of 8 and twice the most slots taken at once |

## Left out

- Confirmer.Confirmer: a batch is a value found by its envelope id, not a shared pointer; ids are never drawn twice.
- Confirmer.Confirmer.Send: where a batch is cut is nondeterministic here, `BatchFrames` has the cut itself; whether each frame can be made or read back, and which connection takes it, are given functions.
- Confirmer.Confirmer.ResolveUnfollowed: the flags are a sequence of booleans here; `ResolvedFlags` is their packed form.
- Confirmer.Confirmer.TimerFired: batches due are taken in any order, and back-off and deadlines are whole ticks.
- ConfirmedLedger.NotBeforeItsDeadline: what ends for want of a frame is told of as not confirmed; the model keeps it as an end of its own, `Unsendable`.
- Batching.Batcher.SetDelivery: delays are whole ticks, so negative ones and what is no number are not part of this model; the times sends are given come from a clock that does not run back.
- Batching.Batcher: trackers, callbacks and sends made from within a callback; the confirmed sends' numbers are any non-zero ones.
- Receiver.Receiver: a sink in place of the queue, delivery errors split by message, and the confirmations a consumer owes beyond their encoding.
- Routing.Client: the maps of connections by target and by peer are one; versions do not wrap; which requests an outbox takes is a given function; a version's routing and key filters are one value, compared as a whole; the callbacks run on an acknowledgement, and a leaving server's query, which takes messages out of order.
- KeyPatterns.KeyPatterns.Match: RE2 is an arbitrary matcher that agrees with the decoding of literal patterns; its memory budget is a choice at each attempt.
- SpanSet.SpanSet: the home slot is an arbitrary function into the table.
- Xxh3.HashLong: the secret is any 192 bytes, and the primes are the published ones as they are, not compared with known digests; bodies of up to 240 bytes, AVX2 and AVX-512 are not part of this model.
- Query.Query: a pinned lane has its connection from the start and other lanes are not kept; the connections living at the search are given; the time of a stage ends where the tape says; the size check before a query and the callback of an acknowledgement are not part of this model.
- ExitHandshake.NobodyIsCaught: the kept thread states and a forked child's reset of the counter.
- Counters that the source holds in 64 bits and only counts up (numbers given, evaluations, messages in and out) are unbounded.
- Sockets, timers' handlers, name resolution, the outbox, the server's routing, protobuf parsing, the Python bindings and command line tools: outside the model.
