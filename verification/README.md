# A verified model of go-stomp

go-stomp is a STOMP client library and a STOMP server. This project models the parts of it where the
behaviour depends on many steps at once, and proves what holds of them over every input and every run.

**The broker** (`Broker*.dfy`). Each client connection is one goroutine that takes frames from its client,
deliveries from its subscription channel and topic frames from its write channel, and sends requests to one
first-in first-out request channel. One processor takes the requests out, changes the queues, and pushes
frames back into the connections. `Broker` is this as a step system: one event is one loop iteration of one
goroutine, a send on the request channel is an outbox that a later step empties, and a step that would block
changes nothing. A run is any list of events from a server that has just started, with any number of
connections, subscriptions and frames, and any choice of which writes fail. `BrokerTokens`,
`BrokerFrames`, `BrokerConservation`, `BrokerCleanup`, `BrokerRuns`, `BrokerAnswers`, `BrokerAcks` and
`BrokerClients` prove one part each of an invariant of all runs; `BrokerTheorems`, `BrokerAddresses`, `BrokerHistory`,
`BrokerOnce`, `BrokerOrder`, `BrokerRouting`, `BrokerConnects`, `BrokerHandlers`, `BrokerLoop`, `BrokerBounds`,
`BrokerClosing`, `BrokerIds` and `BrokerStranded` state the results, `BrokerCommits` says what a transaction does request
by request, `BrokerObjects` ties the ACK of the step system to that of the list object, and `BrokerExamples`,
`BrokerRevival` and `BrokerLate` hold runs that end badly. Fields marked "history" in the
state are never read by a step; the results talk about them.

**The frame codec** (`Codec.dfy`, `Grammar.dfy`, `FrameIO.dfy`). Writing and reading frames and heart-beats as functions on
byte strings, the grammar of what is read and the bytes that are written, and the `Reader` and `Writer` objects proved
against the functions. A Go byte is held in the char with its code; no proof depends on a char being below 256.

**The objects the server works with** (`Headers.dfy`, `Queues.dfy`, `QueueObjects.dfy`, `Subscriptions.dfy`,
`Topics.dfy`, `TxStores.dfy`). The header as one flat list of strings, frames and their clones, subscription
lists with the pointer back to the list, queues over the shared memory storage, topics, and the transaction
store, as classes, each proved against functions or histories that say what it is for.

**The client** (`ClientRouting.dfy`, `ClientEvents.dfy`, `ClientLoop.dfy`, `ClientChannel.dfy`, `ClientCalls.dfy`). The
table by which the I/O loop routes frames to requests and subscriptions and what ends the loop, and the mutex protocol
around the write channel with what each call gets done under it, for any number of goroutines. A run of the loop is proper when every request brings a new channel and a key that is not in use, and a
SUBSCRIBE asks for no receipt but under its own key.

**Negotiation** (`HeartBeats.dfy`, `Versions.dfy`). Heart-beat settings of both ends, from durations to text and
back, and the choice of the protocol version.

`Text.dfy`, `Sequences.dfy`, `Frames.dfy` and `Totals.dfy` hold what several of these share. `dafny verify dfyconfig.toml`
checks everything.

## Where the code does less than it is meant to

The model follows the code; these are stated as lemmas or as part of a result.

- `Ack`, `Nack` and `FindByIdAndRemove` take a subscription out of a list without clearing its `subList` pointer
  (server/client/subscription_list.go:57-97), so the next `Add` of it panics. `AcknowledgingPanics` is a run in which
  one client that acknowledges one message brings the server down; `WaitingPanicsIff` and `PendingPanicsIff` say
  exactly when such a panic happens.
- `msgId` is never assigned (server/client/subscription.go:12), so in the broker an ACK of any number acknowledges every
  pending subscription in client mode (`AckIgnoresTheMessageId`). The ack rules themselves are proved for lists with
  given ids (`Subscriptions`).
- A frame whose write fails is in no list and no channel any more (server/client/conn.go:289-296); `FramesConserved`
  counts it as dropped, `AtMostOneFrameDropped` bounds it, and `DropsIff` says when it happens (`FailedWriteDrops` is a
  run with one).
- The processor ignores `DisconnectedOp`, so it can push a frame to a connection that has drained its channel for the
  last time (`FrameIsStranded` is such a run, in which no id is used twice and nothing is acknowledged). The frame is lost
  for good: it stays in that channel in every continuation (`StrandedForever`), where `FramesConserved` counts it and
  `AtMostOneFrameDropped` does not see it. `PushesIff` says exactly when a request pushes a frame to a connection, closed or
  not, and `StrandsOnlyBeforeDisconnected` that, for a closed one and a subscription that was not revived, this ends when
  its DisconnectedOp has been served.
- A subscription that was unsubscribed is looked up by id, not by identity (server/client/conn.go:283), so reusing an id
  revives it, and so does an ACK or NACK that matches it after it was unsubscribed (`AckRevivesIff`).
  `RevivedGetsItsMessageBack` is a run in which one of them is handed what its own connection gave back. The general
  results on cleanup exempt the revived ones; when a client uses no id twice these were all acknowledged
  (`RevivedWasAcknowledged`), and `ClosedConnectionGetsNothing` states the result in terms of what the client sent.
- A SUBSCRIBE with a new id and a destination, and an UNSUBSCRIBE of an id in use, never answer a receipt
  (server/client/conn.go:611-657); `EachFrameAnswered` makes these the only exceptions.
- A SEND without a destination reaches the processor, which panics. `MissingDestinationIff` says exactly when, and
  `SendIsLostIff` and `CommitLosesIff` which frames of a client cause it (`LostSendPanics` is a run).
- SUBSCRIBE accepts any ack mode; a later ACK panics on an invalid one (`AckPanicsIff`, and `InvalidModePanics` for every
  invalid mode). `CommitsAreAtomic` says exactly when a COMMIT does.
- Cleanup gives unacknowledged frames back first to last, each to the front of its queue, so a queue on which nobody
  waits gets them back in reverse (`PendingGivenBackInOrder`, `ServedInReverse`, `GivenBackInReverse`).
- Undefined escapes pass through the reader, and CONNECT frames are escaped like others, unlike "Value Encoding" in the
  STOMP 1.2 specification (`EscapeUnescapeIff`, `UnescapeTable`).
- The comment on `Reader` says that the buffer size limits the header section (frame/reader.go:22-28); the code has no
  such limit, and neither has the model.
- A DISCONNECT frame is answered, but the connection goes on reading frames (server/client/conn.go:553-561);
  `DisconnectGoesOn` shows that a SEND after it is accepted.
- `handleAck` and `handleNack` read `ack` or `message-id`, while the 1.2 client sends `id` (conn.go:788-792); such an
  ACK is refused (`AckNeedsIdIff`).
- The comment on `MemoryQueueStorage.Requeue` says that it sets the message-id, and the one on `Frame.Clone` that the
  body is shared; the code does neither.
- A SUBSCRIBE of the client with a receipt header other than its own key makes the client send on a closed channel;
  `SubscribeCanPanicIff` shows that this is the only SUBSCRIBE that can, and `SubscribeWithReceiptPanics` that it does.
- A client read timeout below a millisecond is announced as "off" but kept as a timeout; `ServerToClient` shows that this
  is the only case in which the two ends disagree.

## Model

| member | source | states |
|---|---|---|
| BrokerTheorems.ReachableGood | server/client/conn.go:187-424 | every state of every run satisfies the invariant that the results below rest on |
| BrokerTheorems.StepGood | server/processor.go:42-93 | every event of every goroutine keeps the invariant, or panics for one of three reasons |
| BrokerTheorems.FramesConserved | server/client/conn.go:264-405 | in every run, a frame that entered a queue is in exactly one place (a request, storage, a subscription channel, a pending list, acknowledged, written to an auto subscriber, or dropped), and no other frame is in any |
| BrokerTheorems.AtMostOneFrameDropped | server/client/conn.go:289-296 | a connection loses at most one frame in a failed write, and none while it is running |
| BrokerTheorems.DeliveriesKeepTheMessage | server/client/subscription.go:59-84 | however often a frame is requeued, its body and all header entries but those of a delivery are as they entered, and it stays with its destination |
| BrokerTheorems.DeliveryGoesTo | server/client/conn.go:283-311 | a delivery moves its frame to exactly one place: a requeue request when the id of the subscription is not in use, else the dropped frames exactly when the write fails, else written for good in auto mode, else the pending list |
| BrokerHistory.MessagesComeFromClients | server/client/conn.go:750-771 | every frame that entered a queue is a SEND that some client sent, without its receipt and transaction entries |
| BrokerOnce.EntersAtMostOnce | server/client/conn.go:750-771 | in every run, a message has entered queues at most as often as clients sent a SEND for it, replayed or not |
| BrokerHistory.TransactionsAreWhatClientsSent | server/client/tx_store.go:14-65 | a connection stores for a transaction exactly the SEND, ACK and NACK frames received for it since its BEGIN, in order, and has it open exactly when no later COMMIT or ABORT ended it |
| BrokerAddresses.DeliveriesReachTheirSubscription | server/client/subscription.go:59-84 | every delivery was written on the connection of its subscription, under its id, and its message was sent to its destination |
| BrokerAddresses.ServeRight | server/queue/queue.go:31-86 | the processor gives a frame to a subscription only under the id of that subscription, and changes nothing else a subscription holds |
| BrokerTheorems.SubscriptionInOnePlace | server/queue/queue.go:31-86 | in every run a subscription is at most once in all SubscribeOps, waiting lists, subscription channels and pending lists together |
| BrokerTheorems.PanicsExplained | server/client/subscription.go:79-84 | the server panics only for a missing destination, an invalid ack mode, or a subscription that an ACK or NACK once matched; "already has a frame pending" and a nil frame never happen |
| BrokerTheorems.WaitingPanicsIff | server/client/subscription_list.go:22-28 | adding a subscription to the waiting list panics exactly when an ACK or NACK matched it before |
| BrokerTheorems.PendingPanicsIff | server/client/conn.go:298-307 | adding a delivered subscription to the pending list panics exactly when an ACK or NACK matched it before |
| BrokerTheorems.MatchedNeverListed | server/client/subscription_list.go:71-97 | a subscription once matched by an ACK or NACK is never in a waiting or pending list again |
| BrokerTheorems.AckIgnoresTheMessageId | server/client/subscription.go:12 | since msgId stays 0, an ACK of any number matches every client-mode subscription, and only 0 matches an individual one |
| BrokerTheorems.MissingDestinationIff | server/processor.go:64-70 | in every run the processor panics for a missing destination exactly when the next request is an EnqueueOp of a frame without one |
| BrokerTheorems.SendIsLostIff | server/client/conn.go:750-771 | a SEND outside a transaction causes one EnqueueOp, which will panic the processor exactly when the SEND has no destination |
| BrokerTheorems.CommitLosesIff | server/client/conn.go:578-595 | a COMMIT causes such an EnqueueOp exactly when its transaction has a SEND without a destination |
| BrokerTheorems.RequeuesHaveAQueue | server/processor.go:80-91 | a frame that is given back always has a queue as its destination, as the comments there expect |
| BrokerTheorems.ReceiptsAnsweredAtMostOnce | server/client/conn.go:89-104 | over a whole run, a client gets at most as many RECEIPT and ERROR frames with a receipt-id as it sent frames asking for it |
| BrokerTheorems.EachFrameAnswered | server/client/conn.go:539-609 | each frame received, while connecting or connected, causes exactly one RECEIPT or ERROR for the receipt it asks for, including replays and failures after the receipt; only a SUBSCRIBE with a new id and a destination and an UNSUBSCRIBE of an id in use are not answered |
| BrokerHandlers.FramesHandled | server/client/conn.go:436-771 | in every run, a connection that is up stays up after a frame exactly when the command, its entries, the ids in use, the open transactions and the receipt allow it; it then does exactly what the frame asks for (subscription, unsubscription, message, acknowledgement or nothing), and otherwise it writes an ERROR and goes down without a request |
| BrokerHandlers.FramesAnswered | server/client/conn.go:86-104 | in every run, a connection that is up writes for an accepted frame exactly the RECEIPT it asks for (nothing for SUBSCRIBE and UNSUBSCRIBE), and for any other one ERROR, after that RECEIPT or with its receipt-id |
| BrokerHandlers.SubscribeMakes | server/client/conn.go:611-639 | in any state in which a connection is up, a SUBSCRIBE with a destination and a new id makes exactly one subscription, for that destination, under that id, in the mode of its ack entry or else automatic, and sends exactly its SubscribeOp |
| BrokerHandlers.ConnectHandled | server/client/conn.go:426-534 | a connection comes up exactly with a CONNECT or STOMP without receipt that is admitted, with one CONNECTED and one ConnectedOp; any other first frame is answered with an ERROR |
| BrokerConnects.ConnectComesFirst | server/client/conn.go:426-434 | in every run, a connection that is up began with a CONNECT or STOMP without receipt, and one that is not up yet has handled nothing |
| BrokerIds.SubscriptionsAreAskedFor | server/client/conn.go:611-639 | in every run, each subscription has the id, the destination and the mode of a SUBSCRIBE that its client sent, and is automatic when that had no ack entry |
| BrokerLoop.LoopEndsIff | server/client/conn.go:187-328 | in every run, an event takes a connection out of its loop exactly when the client is gone, something cannot be written, an ERROR of a topic was written, or a frame is not accepted |
| BrokerLoop.DeliveryDoes | server/client/conn.go:264-311 | in every run, a delivery takes the first subscription off the channel and gives its frame back if the id is not in use; otherwise it writes exactly that frame, and an automatic subscription asks for its next message at once while any other becomes the last pending one |
| BrokerLoop.TopicFrameIsWritten | server/client/conn.go:202-235 | a topic frame taken off the write channel is the next frame written, with only the delivery entries set |
| BrokerBounds.ChannelsBounded | server/client/conn.go:331-405 | in every run, the request channel holds at most 128 requests and the channels of a connection at most 16 entries, and a connection that drains or is closed has no subscription and no pending entry left |
| BrokerBounds.ServesOrWaits | server/processor.go:42-93 | in every run, the processor takes the next request off, unless the channel of the subscription it gives a frame to is full |
| BrokerBounds.PhaseMovesIff | server/client/conn.go:331-370 | cleanup goes on to its next phase exactly when there is nothing left to unsubscribe, give back or drain in this one |
| BrokerBounds.CleanupAdvances | server/client/conn.go:331-370 | in every run, an unblocked connection in cleanup has a step that completes its phase or leaves one subscription, pending entry or queued frame less |
| BrokerRouting.QueuePrefixIff | server/processor.go:98-100 | a destination is a queue exactly when its first six bytes are /queue |
| BrokerRouting.QueuesArePrefixed | server/processor.go:42-93 | in every run, every queue has a destination with this prefix |
| BrokerRouting.MessagesAreRouted | server/processor.go:64-91 | in every run, a message without the prefix touches no queue, channel or subscription; one with it goes to the first waiter of its queue under that one's id, or waits for room in its channel, or is stored behind the others when sent and in front when given back; all other queues stay |
| BrokerRouting.TopicsTouchNoQueue | server/processor.go:46-62 | in every run, a subscription without the prefix is in no queue, channel or pending list, and its requests touch none |
| BrokerTheorems.DisconnectGoesOn | server/client/conn.go:553-561 | after a DISCONNECT the connection is as before, and the next SEND still causes its EnqueueOp |
| BrokerTheorems.AckNeedsIdIff | server/client/conn.go:659-745 | an ACK or NACK is refused for a missing message id exactly when it has neither an ack nor a message-id entry, whatever its id entry says |
| BrokerTheorems.MessagesNumbered | server/client/conn.go:408-424 | the n-th MESSAGE of a connection has message-id and id n modulo 2^64, and an ack entry, equal to them, exactly when its subscription acknowledges |
| BrokerTheorems.WaitingOrStored | server/queue/queue.go:31-68 | in every run no destination has both a waiting subscription and a stored message |
| BrokerOrder.QueueIsRun | server/processor.go:42-93 | in every run, the queue of a destination is that of the queue model after the operations that the processor served for it, so the results on Queues hold of it |
| BrokerOrder.HandedIsGiven | server/queue/queue.go:31-86 | whom such an operation hands a message holds that message now, on the channel of its connection |
| BrokerOrder.FirstInFirstOutInRuns | server/queue/queue.go:31-68 | in every run in which nothing was given back to a destination, the messages handed over from its queue followed by the stored ones are those of its EnqueueOps, in order |
| BrokerTheorems.CommitsAreAtomic | server/client/conn.go:578-595 | in every run a COMMIT either panics, exactly when it has an ACK that meets a pending subscription with an invalid ack mode, or causes exactly the requests of its SEND, ACK and NACK frames in order, leaves exactly the pending entries none of them takes, and deletes the transaction |
| BrokerCommits.ReplayDoesAll | server/client/tx_store.go:44-56 | replaying stored frames causes the requests of each in turn, against the pending list the earlier ones left |
| BrokerCommits.StaysPendingIff | server/client/conn.go:659-745 | after a transaction a subscription is pending exactly when it was and no ACK or NACK of the transaction takes it |
| BrokerCommits.SubscribesAgainIff | server/client/conn.go:659-745 | a pending subscription goes back to its queue exactly when some frame of the transaction takes it |
| BrokerAnswers.CommitAllOrNothing | server/client/tx_store.go:44-56 | for any open transaction of replayable frames, every stored SEND is sent on in order, other transactions stay, and nothing but a panic stops it |
| BrokerAnswers.DispatchTold | server/client/conn.go:436-463 | every handler stores only frames that can be replayed, and writes at most the RECEIPT that was asked for |
| BrokerAcks.SettleSplits | server/client/conn.go:659-745 | ACK and NACK leave exactly the unmatched pending entries in order and emit the requests for exactly the matched ones in order |
| BrokerAcks.AckPanicsIff | server/client/subscription.go:38-51 | ACK panics exactly when some entry it walks over has an invalid ack mode |
| BrokerObjects.SettleIsTake | server/client/subscription_list.go:71-97 | the ACK and NACK of the step system leave what those of the list object leave, and panic for both or for neither |
| BrokerAcks.ReplayPanicsIff | server/client/conn.go:578-595 | replaying a transaction panics exactly when it has an ACK and an invalid pending entry that no earlier NACK takes away |
| BrokerClients.AnsweredExactly | server/client/conn.go:256-262 | the answer to one received frame, for any state of a connection that is connecting or running |
| BrokerRuns.StepInv | server/client/conn.go:187-370 | places, frames and ordering of requests survive every event |
| BrokerConservation.ServedKeeps | server/processor.go:42-93 | serving one request neither loses nor copies any frame: the count of every frame over all places stays |
| BrokerConservation.DeliverKeeps | server/client/conn.go:264-311 | one delivery neither loses nor copies any frame: the count of every frame over all places stays |
| BrokerTokens.ServedTokens | server/queue/queue.go:31-86 | serving one request keeps every subscription in one place |
| BrokerTokens.DeliverTokens | server/client/conn.go:264-311 | one delivery keeps every subscription in one place |
| BrokerCleanup.ServeShrinks | server/processor.go:42-93 | serving a request puts nobody on a waiting list but the subscription it names, and an UnsubscribeOp takes its subscription off |
| BrokerClosing.AwayAtHead | server/client/conn.go:331-370 | when the first frame given back by a closing connection, or its DisconnectedOp, is next, every UnsubscribeOp of it has been served |
| BrokerClosing.StepAway | server/client/conn.go:331-370 | from then on no event exposes a subscription of that connection to a queue |
| BrokerClosing.CleanupLeavesNobodyWaiting | server/client/conn.go:331-370 | from the time when a frame given back by a closing connection, or its DisconnectedOp, is next, no subscription of it that was not revived waits in a queue or is on its way to one, in every continuation |
| BrokerClosing.CleanupNeverGetsItsMessagesBack | server/processor.go:80-91 | from that time on, in every continuation, the processor hands nothing to a subscription of that connection that was not revived |
| BrokerIds.RevivedWasAcknowledged | server/client/conn.go:611-657 | in every run in which a client used no id in two SUBSCRIBE frames, each of its revived subscriptions was matched by one of its ACK or NACK frames |
| BrokerIds.AckRevivesIff | server/client/conn.go:659-745 | an ACK or NACK revives exactly the pending subscriptions that it matches and that were unsubscribed by then |
| BrokerIds.ClosedConnectionGetsNothing | server/client/conn.go:331-370 | once a frame given back by the cleanup of a connection, or its DisconnectedOp, is next, and if its client used no id twice, a subscription that it did not acknowledge waits nowhere and is handed nothing, in every continuation |
| BrokerStranded.StrandedForever | server/client/conn.go:357-405 | a frame in the channel of a closed connection stays there, held by the same subscription, in every continuation of the run |
| BrokerStranded.PushesIff | server/queue/queue.go:31-86 | serving a request puts a frame into the channel of a connection, closed or not, exactly when it is a SubscribeOp of one of its subscriptions and a message is stored, or a message for a queue on which one of them waits first, and the channel has room |
| BrokerStranded.StrandsOnlyBeforeDisconnected | server/processor.go:42-93 | in every run, a closed connection is pushed a frame for a subscription that was not revived only while its DisconnectedOp is still on its way |
| BrokerLate.FrameIsStranded | server/client/conn.go:331-370 | a run in which a closed connection is left with a frame in its channel, although no subscription was revived or acknowledged |
| BrokerExamples.AcknowledgingPanics | server/client/subscription_list.go:71-81 | a run in which one subscriber acknowledges one message and the server panics |
| BrokerExamples.InvalidModePanics | server/client/subscription.go:38-51 | for every invalid ack mode, a run in which a subscriber with it acknowledges one message and the server panics |
| BrokerExamples.InvalidModeCommitPanics | server/client/conn.go:578-595 | for every invalid ack mode, a run in which a COMMIT of such an acknowledgement panics, by the condition of CommitsAreAtomic |
| BrokerExamples.FailedWriteDrops | server/client/conn.go:289-296 | a run in which a failed write loses a frame |
| BrokerRevival.RevivedGetsItsMessageBack | server/client/conn.go:283-311 | a run in which a subscription revived by reusing its id is handed a frame that the cleanup of its own connection gave back |
| BrokerClosing.PendingGivenBackInOrder | server/client/conn.go:353-355 | along every run, while a closing connection gives back its pending list, the RequeueOps it has sent followed by what is still pending are the frames that were pending when it began, in that order, whatever the others do in between |
| BrokerClosing.ServedInReverse | server/processor.go:80-91 | served one after the other for a queue on which nobody waits, given-back frames are stored in reverse, ahead of what was stored |
| Queues.GivenBackInReverse | server/queue/queue.go:75-86 | messages given back to a queue on which nobody waits are stored in the reverse order, ahead of the others |
| Codec.UnescapeEscape | frame/encode.go:8-34 | unescaping inverts escaping for every byte string |
| Grammar.EscapeTable | frame/encode.go:9-14 | anywhere in a text, backslash, CR, LF and colon are written as their two bytes and any other byte as itself |
| Grammar.UnescapeTable | frame/encode.go:15-20 | the four escapes are read as their bytes; a backslash before any other byte, and every other byte, stands for itself |
| Grammar.EntryOnTheWire | frame/writer.go:60-84 | the bytes of a header entry whose value has a colon |
| Codec.EscapeUnescapeIff | frame/encode.go:8-34 | a text is written the same way after it was read exactly when it has no bare delimiter and only defined escapes |
| Codec.RoundTripIff | frame/writer.go:31-100 | a written frame is read back, whatever follows it and without touching it, exactly when it is well-formed |
| Codec.ReadsWellFormed | frame/reader.go:47-140 | whatever the input, an accepted frame has a known command, non-empty keys and a body that agrees with its content-length |
| Grammar.ReadsIff | frame/reader.go:47-140 | a frame is read off the input exactly when the input starts with it in the grammar: one of fifteen commands, lines with a non-empty key before their first colon, an empty line, the announced body or one without NUL, and a NUL, with LF or CR-LF after each line |
| Grammar.HeartBeatIff | frame/reader.go:52-58 | a heart-beat is exactly an empty line with LF or CR-LF |
| Grammar.InvalidCommandIff | frame/reader.go:60-66 | a command is refused exactly when the first line is complete, not empty and not one of the fifteen |
| Grammar.BadLineRefused | frame/reader.go:68-97 | after any good header lines, one without a colon or with an empty key is refused |
| Grammar.WritesTheGrammar | frame/writer.go:31-100 | the bytes that are written, in that grammar with LF |
| Codec.StreamRoundTripIff | frame/reader.go:47-157 | a written stream of heart-beats and frames is read back item by item with nothing left over exactly when all its frames are well-formed |
| Codec.ItemExtends | frame/reader.go:47-157 | a result other than end of input does not depend on the bytes after it |
| Codec.ProperPrefixIsEof | frame/reader.go:47-157 | reading a proper prefix of a written item ends in end of input |
| Codec.CutStream | frame/reader.go:47-157 | a stream cut anywhere gives exactly the items that were complete before the cut |
| FrameIO.Reader.Read | frame/reader.go:47-140 | the object reads what the function says and consumes as much, however the input splits into chunks |
| FrameIO.Reader.ReadCountedBody | frame/reader.go:101-122 | the body-filling loop gives the announced bytes for any sizes of the partial reads |
| FrameIO.Reader.ReadHeaderLines | frame/reader.go:68-97 | the header loop gives the entries the function reads, or its error |
| FrameIO.Reader.ReadTextLine | frame/reader.go:143-157 | one line without LF or CR-LF, or end of input |
| FrameIO.Writer.Write | frame/writer.go:31-100 | the object appends exactly the bytes of the item |
| Headers.Header.Set | frame/header.go:76-83 | on entries: the first one with the key is replaced, or one is appended |
| Headers.Header.Contains | frame/header.go:130-136 | the value of the first entry with the key, or none |
| Headers.Header.Del | frame/header.go:139-143 | every entry with the key is gone and the others keep their order |
| Headers.Header.GetAll | frame/header.go:106-114 | all values of the key, in order |
| Headers.Header.ContentLength | frame/header.go:161-175 | the content-length, its absence, or that it is malformed |
| Headers.PutAt | frame/header.go:76-83 | setting a key replaces the first entry that has it, in place, or adds one at the end |
| Headers.Header.Clone | frame/header.go:151-155 | a new object with the same entries |
| Headers.FrameObject.Clone | frame/frame.go:28-38 | a frame with the same value whose header and body are new objects |
| Frames.PutKeepsOthers | frame/header.go:76-83 | setting a key leaves all entries with other keys as they were |
| Frames.DropKeepsOthers | frame/header.go:139-143 | deleting a key leaves all entries with other keys as they were |
| Queues.QueueRefinesDeque | server/queue/queue.go:31-86 | after every sequence of operations, the queue with its bypass has the state and the deliveries of "join, then pair front with front", and is never both waiting and storing |
| Queues.FirstInFirstOut | server/queue/queue.go:57-68 | without requeues, messages are handed over in the order they came and the stored ones come after them |
| Queues.MessagesConserved | server/queue/memory_queue.go:19-58 | each message is handed over or stored as often as it was given |
| QueueObjects.Queue.Subscribe | server/queue/queue.go:31-46 | the object does what the function says, leaves other destinations alone, and panics exactly when the list or the subscription is not ready |
| QueueObjects.Queue.Unsubscribe | server/queue/queue.go:49-51 | the subscription leaves the waiting list and forgets it, if it was in it |
| QueueObjects.Queue.Enqueue | server/queue/queue.go:57-68 | the frame goes to the first waiting subscription, with its id set, or to the back of this destination's list only |
| QueueObjects.Queue.Requeue | server/queue/queue.go:75-86 | the frame goes to the first waiting subscription, with its id set, or to the front of this destination's list only |
| QueueObjects.MemoryQueueStorage.Dequeue | server/queue/memory_queue.go:46-58 | the first message of the destination, or none; other destinations untouched |
| Subscriptions.SubscriptionList.Add | server/client/subscription_list.go:22-28 | panics exactly when the subscription points to a list |
| Subscriptions.SubscriptionList.Get | server/client/subscription_list.go:33-42 | the first entry leaves the list and its pointer is cleared |
| Subscriptions.SubscriptionList.Remove | server/client/subscription_list.go:45-53 | the entry leaves the list and its pointer is cleared, if it was there |
| Subscriptions.SubscriptionList.FindByIdAndRemove | server/client/subscription_list.go:57-66 | the first entry with the id leaves the list but still points to it |
| Subscriptions.SubscriptionList.Take | server/client/subscription_list.go:71-97 | walking and removing at once, Ack and Nack leave exactly the unmatched entries in order, call back exactly the matched ones in order, and leave these pointing to the list; Ack panics exactly when an entry has an invalid mode |
| Subscriptions.LeftOrTaken | server/client/subscription_list.go:71-97 | every entry is left or taken, never both, according to whether it is acknowledged |
| Subscriptions.AckIsCumulative | server/client/subscription.go:38-51 | on client-mode lists, Ack(m) then Ack(n) with m <= n leaves the list of Ack(n) and takes the same entries in all |
| Subscriptions.Subscription.IsAckedBy | server/client/subscription.go:38-51 | the three ack modes, and the panic on any other |
| Subscriptions.Subscription.SendQueueFrame | server/client/subscription.go:59-84 | the frame gets the subscription id and goes with the subscription to its connection, unless one is pending |
| Topics.Topic.Enqueue | server/topic/topic.go:47-73 | every subscriber gets one frame, equal to the one sent with its own id; no two share a frame, header or body object; the last gets the original and the others clones; each connection gets those of its subscribers in order |
| Topics.Topic.Unsubscribe | server/topic/topic.go:36-43 | the first entry of the subscription leaves the list |
| TxStores.StoreIsHistory | server/client/tx_store.go:18-65 | after any calls, the store holds exactly the open transactions, each with the frames added since it was begun |
| TxStores.CommitHandsOver | server/client/tx_store.go:44-56 | Commit hands over exactly the frames added since the transaction was begun, in order and without transaction header, and fails exactly when it is not open |
| TxStores.TxStore.Commit | server/client/tx_store.go:44-56 | the draining loop: all frames in order without a failure; with one, the frames before it were committed, it is lost, and the rest stays open |
| TxStores.TxStore.Begin | server/client/tx_store.go:18-29 | an open transaction is refused, and nothing changes |
| TxStores.TxStore.Add | server/client/tx_store.go:58-65 | the frame is appended without its transaction header |
| TxStores.TxStore.Abort | server/client/tx_store.go:31-38 | the transaction is gone, or unknown |
| ClientRouting.StepRoutes | conn.go:262-417 | one iteration of the loop treats every key on its own, when a request brings a new key |
| ClientRouting.StepSound | conn.go:262-425 | any event keeps the table injective and its channels open and uses no closed channel, when new requests bring new channels and a SUBSCRIBE asks for no receipt but under its own key |
| ClientRouting.RunSound | conn.go:262-425 | so in every such run no closed channel is used, even if keys are used again |
| ClientRouting.SubscribePanicsIff | conn.go:371-390 | in any sound state, an ERROR right after a SUBSCRIBE crashes the loop exactly when the SUBSCRIBE asks for a receipt under another key than its own |
| ClientRouting.SubscribeCanPanicIff | conn.go:371-390 | exactly after such a SUBSCRIBE is there a frame that crashes the loop |
| ClientEvents.LoopEndsIff | conn.go:280-417 | after an event the loop has returned exactly when it was a lost connection or timeout, an ERROR, a RECEIPT without receipt-id, or a request that is written and cannot be |
| ClientEvents.RunEndsIff | conn.go:272-417 | a run has returned exactly when one of its events was such a one |
| ClientEvents.TableAfter | conn.go:331-390 | which channel is known under which key after an event: a SUBSCRIBE registers under its reply-to entry or else its id, any request under its receipt, and a RECEIPT or an UNSUBSCRIBE of a reply-to destination removes |
| ClientEvents.ShutAfter | conn.go:331-390 | an event closes exactly the channels whose keys it removes, and an ERROR all channels of the table |
| ClientRouting.ChannelsGetTheirFrames | conn.go:330-417 | in every proper run each channel gets exactly the frames for its key, in order, from its registration to the event that ends it |
| ClientRouting.RequestsAreAnsweredOnce | conn.go:331-341 | in every proper run the channel of a request gets at most one RECEIPT, with its own receipt-id, and nothing after it |
| ClientRouting.SubscriptionsGetTheirMessages | conn.go:358-366 | in every proper run the MESSAGE frames on the channel of a subscription are the ordered subsequence of those naming its key while registered |
| ClientLoop.Loop.Handle | conn.go:262-417 | the loop body changes the table, the channels and the logs as the step function says |
| ClientLoop.Loop.SendError | conn.go:420-425 | walking the table in any order sends the error once on each channel |
| ClientLoop.Loop.HandleError | conn.go:344-356 | walking the table in any order sends the ERROR frame once on each channel and closes it |
| ClientChannel.WriteChannelIsSafe | conn.go:433-475 | in every interleaving writeCh is closed at most once and nobody sends on it after that, which answers the question at conn.go:698; once processLoop is gone the connection is closed |
| ClientChannel.ClosedAcceptsNothing | conn.go:486-701 | once closed, a connection stays closed and puts no further request on writeCh |
| ClientChannel.StepSafe | conn.go:433-701 | every step of every goroutine keeps the mutex discipline and does not panic |
| ClientCalls.CallDoesItsWork | conn.go:433-701 | in every interleaving, between getting the mutex and giving it up a call puts exactly one request on the channel when the connection is open and nothing fails, none otherwise, closes the connection exactly when it is to, and nobody else does anything of it |
| ClientCalls.OnlyTheHolderActs | conn.go:433-701 | while a goroutine holds the mutex, no step of another changes its point, the connection or the accepted requests |
| ClientCalls.DisconnectCloses | conn.go:433-458 | in every interleaving, once a Disconnect has its answer, the connection is closed when the mutex is next given up, and accepts nothing from then on |
| ClientCalls.MustDisconnectCloses | conn.go:344-356 | the same from the moment a MustDisconnect, or the loop with an ERROR, has the mutex |
| ClientCalls.StuckIff | conn.go:544-556 | the holder of the mutex is stuck exactly where it wants to write and the channel is full |
| ClientCalls.ChannelBounded | conn.go:433-701 | in every interleaving the write channel holds no more requests than its capacity |
| ClientCalls.LoopDrains | conn.go:368-378 | processLoop takes the queued requests one by one, and leaves after the last one when the channel was closed |
| HeartBeats.AcceptedIff | server/client/frame.go:91-119 | the server accepts a setting exactly when both durations are above -1 ms and below 1000000000 ms |
| HeartBeats.ServerReadsBack | server/client/frame.go:102-111 | formatting and reading a pair at the server is a round trip exactly up to its maximum |
| HeartBeats.ClientReadsBack | frame/heartbeat.go:26-44 | formatting and reading a pair at the client is a round trip exactly when both fit a duration |
| HeartBeats.AnnouncedIsUsed | server/client/conn.go:145-176 | the announced numbers are the timeouts that readLoop and the writer of the server use |
| HeartBeats.NegotiatedNumbers | server/client/conn.go:499-523 | the announced pair in numbers: per direction 0 if the client offers 0, else the larger of the offer and the setting (60000 by default, at most 999999999), and the timeouts of both ends from it |
| HeartBeats.DefaultIsAMinute | server/client/conn.go:168-170 | a client that offers 1,1 is told 60000,60000 by a default server |
| HeartBeats.ClientToServer | conn.go:180-206 | from client to server both ends are off, or the interval is positive and below the limit of the peer |
| HeartBeats.ServerToClient | conn.go:191-200 | from server to client the same holds exactly when the client's read timeout is not between 0 and a millisecond |
| HeartBeats.DurationsFit | server/client/util.go:10-21 | the negotiated intervals and deadlines fit 64 bits |
| Versions.DetermineVersion | server/client/frame.go:37-80 | the highest supported version named, in any order and with anything else in the list; an error exactly when none is |
| Versions.ConnectVersion | server/client/conn.go:485-497 | a connection gets past the version check exactly when 1.1 or 1.2 is named, with the higher of the two |
| Versions.SortSorts | server/client/frame.go:52-54 | sorting orders the versions bytewise and keeps their members |

## Left out

- The connection handlers and the request processor are one step system on values, because what is proved of them is
  about interleavings. Update in place and aliasing of frame and header objects are not captured there; they are in
  the classes of `Headers`, `Subscriptions`, `QueueObjects`, `Topics` and `TxStores`.
- Topics inside the broker: any MESSAGE may be put on a write channel at any time (`TopicFrame`); what a topic does with a
  message is in `Topics`.
- Credentials, version and heart-beat checks of CONNECT inside the broker are one choice of the event (`admit`); versions
  and heart-beats are modelled on their own. The version and heart-beat headers of CONNECTED are left out there.
- The text of error messages, logging, and the content-type of ERROR frames.
- Sockets, listeners, deadlines, buffer sizes and timers: a timer that fires is an event; errors of the connection are
  end of input when reading, and a choice of the event when writing.
- The frame that the client's loop writes for a request, with the receipt entry that it adds to an UNSUBSCRIBE: the loop is
  modelled by its table and what it sends to its channels.
- The grace period multiplier of the client is 1, and floating point with it.
- Deadlock and liveness of the loops: two bounded channels facing each other can block for ever.
- Topics.Topic.Enqueue: does not model the panic of a subscription that holds a frame, because a topic subscription never
  holds one (it is a precondition).
- QueueObjects.Queue.Enqueue: does not model blocking on a full subscription channel; the broker model does.
- Subscriptions.SubscriptionList.Take: does not model what is left in the list when Ack panics.
- Headers.Header: AddHeader, Get and Len, which only add easy members.
- MemoryQueueStorage.Start and Stop, the manager lookup maps, option plumbing, the Transaction wrapper, the validator, and
  Message.Read.
- Subscription.Unsubscribe of the client, waitWithTimeout and closeChannel: they race with readLoop in ways that have no
  safety claim over all interleavings.
- The client's Ack and Nack frames beyond what `Where the code does less` says.
- The cast of bytes to a string in frame/encode.go:24-27 is the identity.
