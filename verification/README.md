# Verified model of xconn-go's concurrent core

xconn-go is a WAMP v2 router and client. The wire codec, the broker and the dealer are in the library
`wampproto-go`; what this repository holds is the concurrent machinery around them. This project models that
machinery in Dafny and proves what it keeps, over every run and every interleaving.

Each concurrent component is a labelled step system: a state, a function `Next(state, label)` with one label per lock
section, channel operation, connection write or message, and a function `Exec` over label sequences. Invariants are
proved step by step, and the main results are about every reachable state or every run. Beside each step system
stand the Go objects as classes, with their loops, whose methods are proved to do what the steps do.

| file | what it models |
|---|---|
| `Bytes.dfy`, `Frames.dfy` | big-endian length fields; the four length-prefixed framings as one codec (RawSocket, in-memory, relay, JSON message) |
| `Streams.dfy` | connections with short and failing writes, reads in any chunks, `writeFull`, and the frame readers and writers |
| `RawSocketProtocol.dfy`, `RawSocketPeer.dfy`, `RawSocketCalls.dfy` | the RawSocket peer: bounded queue, one writer, pongs, the close handshake |
| `LocalPeer.dfy`, `LocalPeerLocks.dfy` | the in-memory peer, drained on close, and its lock |
| `CallSession.dfy`, `CallOutcomes.dfy` | calls on a session: correlation, cancellation, progressive results, disconnection |
| `ProgressiveCalls.dfy` | progressive call invocations, on the caller's wire and in the callee's table |
| `Subscriptions.dfy`, `Registrations.dfy` | the handlers stored per subscription id, and per registration id |
| `QuicListener.dfy`, `QuicListenerClasses.dfy`, `QuicStreams.dfy` | the QUIC listener's WaitGroups, channels and authentication gate |
| `RelayChannel.dfy`, `Backpressure.dfy`, `RelayBothWays.dfy` | the two directions of the data-channel relay, and both together on one connection |
| `RealmDispatch.dfy`, `RealmSteps.dfy` | authorization and fan-out in a realm, for any dealer, broker, authorizer and wildcard matching: one message by itself, and any number of them interleaved with role changes, clients coming and going, and their writers |
| `Authenticator.dfy`, `CallerSessions.dfy` | the key principals and the per-caller sessions |

A Go channel is a sequence with a capacity, closing it a counter, a mutex its holder, a WaitGroup its count. Clocks,
contexts, the network and the application are labels: whatever they may do at a point is a choice of the run. Fields
named as history only record what happened, so that the theorems can speak of it.

## Where the code does less than one may expect

Each of these is proved, by an input or a run that shows it and by the exact condition under which the code does what
is wanted.

- The blocking `RawSocketPeer.Write` waits for room in the queue with the lock held (peer.go:694-707). If the writer
  then fails a write, neither ever moves again, and every `Close` waits for the lock for good. For every queue
  capacity a program's calls always complete if and only if the blocking `Write` is not among them. The in-memory
  peer's writer ends at a failed write and tells nobody (peer.go:795-810): there the calls always complete if and only
  if the blocking `Write` is not among them or no write fails.
- The RawSocket size check admits 16 MiB (peer.go:535, 575), one byte more than the 24-bit length field can say: the
  far end reads back what was accepted if and only if messages stay below that. The in-memory peer has no size
  check, and the same bound at 4 GiB; so has the relay, whose reader merely stops at messages over 1 MiB
  (xconn/relay.go:56-85): everything queued before the close is read if and only if messages stay within that.
- The forwarding half of a data-channel relay closes the connection when it returns (xconn/relay.go:142, 209-210,
  218-220), under the other half's drain. With an app that sends no more the drain is safe if and only if, once the
  close is signalled, the forwarding half is reading or nothing is left to write.
- A session refuses a message it cannot serialize or whose payload is over its transport's limit (peer.go:237-244,
  574-577). Such a message is dropped although the client is attached, open and has room, and ends the delivery of a
  CANCEL (realm.go:170-173).
- A relay frame longer than the distance between the two watermarks can wait for good although the buffer is empty
  (xconn/relay.go:205-211); with frames up to that distance it never happens.
- Cancelling the context of a progressive call sends CANCEL from the waiting half but does not stop the sending half
  (session.go:508-529, 616-624). The wire trace stays that of one progressive call if and only if the context is
  cancelled while that half has more to send and it writes nothing afterwards, or is not cancelled at all: a cancel
  after the final CALL, a CALL after the CANCEL, and a second CANCEL from a progress sender that answers the cancelled
  context with an error break it.
- The callee's progressFunc entry outlives a final chunk that carries receive_progress, and a CANCEL
  (session.go:186-202).
- Two final replies to one call can block the session's reader for good: it never blocks if and only if no call is
  sent more than one.
- A message the reader cannot process ends it without marking the session disconnected (session.go:104-114). A
  waiting call is then abandoned if and only if neither the session's end nor its own reply had been read.
- An UNSUBSCRIBED that arrives after another handler was stored under the same id removes that handler too: the
  stored handlers are the live ones throughout if and only if that never happens. And an EVENT for an id without an
  entry ends the reader (session.go:270-281; types.go:233-263).
- An INVOCATION without a stored handler panics (session.go:167-168). With a router that keeps to the protocol this
  happens if and only if it is read after its REGISTERED and before the registering goroutine has stored the handler,
  or after that gave up. An ERROR for UNREGISTER or UNSUBSCRIBE never reaches its waiter, which times out
  (session.go:306-312, 323-330).
- A message is checked and handed to the dealer or broker in separate steps without a lock (realm.go:249-254), so it
  may be handed over when a role change has revoked the permission. It is always permitted at its hand-over if and
  only if roles are added at most. The authorizer is looked at twice (realm.go:124-125): the handling of a message
  never panics if and only if the authorizer is not cleared meanwhile.
- An add event for an authid unknown at that moment stores a nil principal, and authenticating it panics
  (xconn/auth.go:101-103, 53). No principal becomes nil if and only if every add is for a known authid. A remove
  event without arguments panics as well (xconn/auth.go:136): no event of a run panics if and only if every remove
  carries its argument and none works on an authid that was unknown when it was added to.
- A bridge opens a session for a caller that comes back after its leave, or after everybody was taken leave of, and
  nobody leaves it again (xconn/bridge.go:25-63): every session opened is left in the end if and only if no caller
  does that.

## Model

| member | source | states |
|---|---|---|
| Bytes.FieldRoundTrip | xconn/relay.go:62 | a big-endian length field reads back as the length modulo what the field can hold |
| Frames.FrameRoundTrip | xconn/relay.go:44-85 | for each of the four framings: a written frame followed by any bytes reads back as that frame with exactly those bytes left, if and only if its length is within the reader's limit and the length field |
| Frames.WireFormats | peer.go:615-622 | the framings byte by byte: RawSocket a kind and three length bytes, relay a kind and four, in-memory and JSON message four, each big-endian and before the payload |
| Frames.RelayKinds | xconn/relay.go:84 | of a relay frame only the kind byte 1 means text |
| Frames.OversizeConsumesHeaderOnly | xconn/relay.go:71-80 | a declared length over the limit is refused with the whole payload and everything after it still unread |
| Frames.StreamRoundTrip | xconn/relay.go:56-85 | any sequence of frames that fit, written one after another before any tail, reads back as the same sequence and then whatever the tail holds |
| Frames.CutStream | peer.go:653-687 | a written stream cut at any byte reads as a prefix of the written frames, never a damaged one, stopping at one over the reader's limit, and no byte beyond those frames is used |
| Streams.WriteFull | peer.go:594-610 | under arbitrary short writes the connection gets the whole buffer, unless and only unless a single write failed or took nothing, which is the last and decides between the two errors; then it has a prefix |
| Streams.ReadFull | peer.go:653-658 | under any chunking the buffer is filled with exactly the next bytes, or the read fails because fewer are left |
| Streams.PutUint32 | xconn/relay.go:62 | the four bytes at the offset become the big-endian field, every other byte of the array stays |
| Streams.WriteRelayFrame | xconn/relay.go:56-68 | what reaches the connection is a prefix of one encoded frame, all of it on success; it fails if and only if a write did |
| Streams.ReadRelayFrame | xconn/relay.go:71-85 | over any chunking it returns what the pure decoder does and leaves exactly the bytes the decoder leaves |
| Streams.WriteMsg | xconn/helpers.go:33-45 | what reaches the connection is a prefix of one length-prefixed message, all of it on success; it fails if and only if a write did |
| Streams.ReadMsg | xconn/helpers.go:48-62 | over any chunking it returns the next length-prefixed message, the end, or the refusal of one over 1 MiB |
| RawSocketProtocol.StepKeepsInv | peer.go:574-744 | every step of every caller, the reader and the writer keeps mutual exclusion, the close discipline, first-in-first-out and the byte-exact account of the connection |
| RawSocketProtocol.ClosedAtMostOnce | peer.go:612-744 | in every interleaving of any number of TryWrite, Write and Close with a failing writer: closeChan is closed once exactly when `closed` is set, doneWriting and the connection at most once, and nothing is written to a connection this peer closed |
| RawSocketProtocol.NothingAcceptedAfterClose | peer.go:580-591 | once `closed` is set no later run puts a message on the queue |
| RawSocketProtocol.WireCarriesAcceptedInOrder | peer.go:612-643 | at every moment the bytes sent are a prefix of whole frames, the accepted messages in acceptance order with pongs only between them, so the far end decodes a prefix of the accepted messages |
| RawSocketProtocol.InternalRunsAreBounded | peer.go:612-744 | without new calls only boundedly many steps remain: the peer always comes to rest |
| RawSocketProtocol.AtRestAllReturnedUnlessDeadlocked | peer.go:689-744 | at rest every call has returned if and only if the peer is not in the deadlock of a blocking Write with the lock and a writer wanting it |
| RawSocketProtocol.DeadlockIsForever | peer.go:689-744 | in that deadlock a Close waiting for the lock waits in every continuation |
| RawSocketProtocol.BlockingWriteCanDeadlock | peer.go:694-707 | the deadlock is reachable for every queue capacity and by Write alone, and nothing moves in it |
| RawSocketProtocol.BlockingWriteCanDeadlockClose | peer.go:694-732 | for every queue capacity it is reachable with a Close waiting for the lock |
| RawSocketProtocol.NeverSticksExactlyWithoutWrite | peer.go:574-744 | for every queue capacity and every set of permitted methods: all calls have returned whenever the peer is at rest, if and only if the blocking Write is not among them |
| RawSocketProtocol.TryWriteAndCloseNeverStick | peer.go:574-592 | with TryWrite and Close as the only calls, every reachable state has all calls returned or a step that brings it closer to that |
| RawSocketCalls.AcceptedWerePassed | peer.go:574-714 | in every interleaving a message is accepted at most as often as it was passed to TryWrite and Write |
| RawSocketCalls.AcceptedAreWithinTheLimit | peer.go:574-577 | in every interleaving no message over 16 MiB is accepted, by TryWrite or by Write |
| RawSocketCalls.PongsAnswerThePings | peer.go:624-634 | in every interleaving the pongs sent or queued are the payloads of the pings read, in order and each once |
| RawSocketPeers.ReceiveAllIsWampFrames | peer.go:653-687 | reading until the end returns exactly the WAMP frames of the stream in order, whatever pings and pongs are among them |
| RawSocketPeers.PongsAreThePings | peer.go:672-684 | for every stream: Read returns the first WAMP frame, and the pongs owed by then are the payloads of exactly the pings before it, in order |
| RawSocketPeers.UnknownKindIsAnError | peer.go:684-686 | a frame of any other kind ends the reading |
| RawSocketPeers.FarEndReceivesPrefixOfAccepted | peer.go:574-687 | in every reachable state, what the far end's Read returns is a prefix of the messages this peer accepted, all of which fit the length field |
| RawSocketPeers.SixteenMiBReadsAsEmpty | peer.go:574-577 | a run in which TryWrite accepts 16 MiB and the far end reads an empty message |
| RawSocketPeers.ReadsBackExactlyBelowSixteenMiB | peer.go:574-687 | for every limit: with accepted messages within it the far end always reads a prefix of them, if and only if the limit is below 16 MiB |
| RawSocketPeers.RawSocketPeer.constructor | peer.go:555-572 | a new peer is the protocol's initial state |
| RawSocketPeers.RawSocketPeer.TryWrite | peer.go:574-592 | the lock section does exactly the three steps of the protocol's TryWrite: size refusal, closed pipe, queued at the end, or would block with nothing changed |
| RawSocketPeers.RawSocketPeer.Write | peer.go:689-714 | too large, closed, queued at the end, or blocked with the lock on a full queue: each exactly in its case and by the protocol's steps |
| RawSocketPeers.RawSocketPeer.BeginClose | peer.go:716-726 | one Close, the first, sets `closed` and closes closeChan; the lock section does the protocol's steps |
| RawSocketPeers.RawSocketPeer.FinishClose | peer.go:728-729 | after the writer has ended the first Close closes the connection |
| RawSocketPeers.RawSocketPeer.CloseAfterWriteError | peer.go:734-744 | the failing writer's close does the protocol's three steps, and closes the connection unless a Close came first |
| RawSocketPeers.RawSocketPeer.WriteFrame | peer.go:615-637 | a prefix of the encoded frame goes out, all of it on success; it fails if and only if a write failed or took nothing |
| RawSocketPeers.RawSocketPeer.Select | peer.go:615-640 | the select does the protocol's step for a message or a pong, or ends on the closed closeChan with nothing changed |
| RawSocketPeers.RawSocketPeer.WriterTurn | peer.go:615-641 | one turn takes one frame off the head of one queue, sends it whole or, if and only if a write failed or took nothing, ends in the error path, and keeps the invariants on queues and wire |
| RawSocketPeers.Read | peer.go:653-687 | over any chunking, the next WAMP message with the pongs owed for the pings before it, or an error, and exactly the bytes after it are left |
| LocalPeers.FarEndReads | peer.go:766-869 | in every run the far end has read a prefix of the accepted messages, and all of them after a Close that neither timed out nor met a failed write |
| LocalPeers.ReadsBackExactlyBelowFourGiB | peer.go:795-808 | for every limit: with accepted messages within it the far end always reads a prefix of them, if and only if the limit is below 4 GiB, where the uint32 length wraps around |
| LocalPeers.LocalPeer.TryWrite | peer.go:835-849 | closed pipe, queued at the end, or would block, by the state before |
| LocalPeers.LocalPeer.BeginClose | peer.go:851-860 | the first Close closes the queue, later ones do nothing |
| LocalPeers.LocalPeer.Send | peer.go:799-808 | one message goes out as a length and its bytes; a prefix of that if and only if a write failed or took nothing |
| LocalPeers.LocalPeer.Writer | peer.go:795-810 | ranging over the queue, open or closed, puts every accepted message on the wire in order, then waits or ends; or stops at a failed write with the other side closed |
| LocalPeerLocks.NeverSticksExactly | peer.go:795-869 | for every capacity and set of permitted methods: all calls have returned whenever the peer is at rest, if and only if the blocking Write is not among them or no write fails |
| LocalPeerLocks.CloseWaitsForTheWriter | peer.go:851-869 | in every run, once a Close has closed the queue, one waits for the writer until that has ended or the time is over |
| LocalPeerLocks.NothingQueuedAfterClose | peer.go:812-849 | once a Close has begun nothing is put on the queue in any continuation |
| LocalPeerLocks.BlockingWriteCanStick | peer.go:812-833 | for every capacity a run by Write alone in which a write fails, later ones fill the queue, and the next waits with the lock |
| LocalPeerLocks.StuckForever | peer.go:812-869 | in that state a Close waiting for the lock waits in every continuation |
| LocalPeerLocks.RunsWithoutCallsAreBounded | peer.go:795-869 | without new calls only boundedly many steps remain |
| CallSession.RunKeepsInv | session.go:118-363 | every run of any callers and the reader keeps the account of who waits for what and of every reply and progressive result read so far |
| CallSession.CallsReturnTheirOwnReply | session.go:138-163 | in every interleaving a call that returns a reply returns one with its own id, read while it was pending; callRequests holds only calls that have not returned |
| CallSession.StaleRepliesChangeNothing | session.go:141-146 | a RESULT or ERROR for a call that has returned changes nothing, at any later point of any run |
| CallSession.RepliesAreConserved | session.go:138-163 | in every interleaving each final reply read for a pending call is with its caller, in its channel, or in the reader's hands, exactly one of the three |
| CallSession.ReaderNeverBlocksExactlyUpToOneReply | session.go:160-161 | for every k: with at most k final replies to each pending call no delivery ever blocks the reader, if and only if k is at most one |
| CallSession.BlockedReaderOccurs | session.go:160-161 | two final replies to a call that gave up block it |
| CallSession.BlockedReaderStaysBlocked | session.go:160-161 | and then no run unblocks it |
| CallSession.HandlerRunsAreTheProgressiveResults | session.go:148-158 | a call's handler runs are exactly the progressive results read while it was pending and unanswered, in wire order, and all are over once its final reply is visible |
| CallSession.NoRunsAfterAnswer | session.go:148-162 | once the final reply is visible no run of the handler starts, in any continuation |
| CallSession.DisconnectClosesLeaveChan | session.go:785-791 | for read errors, GOODBYEs and ABORTs in any number and order: leaveChan is closed at most once, only after one of them, and after the first the reader closes it by its own next steps |
| CallSession.ClosedLeaveChanFreesCalls | session.go:626-644 | with leaveChan closed, every call in its select, before or after its CANCEL, can return, in every continuation |
| CallOutcomes.OutcomesHaveTheirCauses | session.go:603-646 | in every interleaving a call returns a reply, the closed connection, a failed write or its context's error if and only if it received one, saw leaveChan, had a write of its own fail, or got no answer to its written CANCEL in time |
| CallOutcomes.CancelGoesOutBeforeTheTimeout | session.go:616-642 | in every run the CALL and then the CANCEL were written before its answer is given up on |
| CallOutcomes.ReplyAfterCancelIsReturned | session.go:625-637 | in every run a call whose CANCEL is out and that was neither answered nor given up receives and returns the reply that comes |
| CallOutcomes.ReplyAfterCancelOccurs | session.go:625-637 | a run of a call that is cancelled and returns its reply |
| CallOutcomes.PendingUntilTakenOff | session.go:427-429 | in every interleaving a stored call stays in callRequests until its deferred delete, its timeout or an ERROR for it, and is not there after the first two |
| CallOutcomes.HandlerStaysUntilTheResult | session.go:159-162 | in every interleaving a progress handler is stored if and only if no RESULT that ends its call has been delivered |
| CallOutcomes.StopsExactlyAfterErrors | session.go:91-116 | in every run the reader stops if and only if it met a read error or a message it cannot process; GOODBYE and ABORT alone do not stop it |
| CallOutcomes.NothingIsReadAfterAnError | session.go:91-116 | in every run no message is read after one of those |
| CallSession.AbandonedExactlyWithoutEndOrReply | session.go:91-116 | in every run that stopped the reader, a waiting call is abandoned if and only if neither a read error, GOODBYE or ABORT nor a final reply to it was read; the run then holds a bad message, and otherwise the call can return at once |
| CallSession.AbandonedCallOccurs | session.go:104-114 | a message the reader cannot process leaves a call waiting |
| CallSession.AbandonedForGood | session.go:604-616 | and such a call waits in every continuation in which its context does not end |
| CallSession.Session.constructor | session.go:60-89 | a new session is the step system's initial state |
| CallSession.Session.MarkDisconnected | session.go:785-791 | the session is not connected any more and leaveChan closed, by the first call only |
| CallSession.Session.StoreCall | session.go:417-429 | the start of a call refuses on a session not established, and otherwise leaves a channel under its id |
| CallSession.Session.Send | session.go:159-162 | delivering a final reply runs the reader as far as it goes alone: idle, or blocked with the reply in hand |
| CallSession.Session.ProcessIncoming | session.go:118-163 | for every call message and every end of session, fields and reader end where the step system's reader settles |
| ProgressiveCalls.SendChunks | session.go:486-532 | the messages of the sending half are one request id throughout, in the order of the chunks, all but the last marked progress, ended by a final CALL or one CANCEL |
| ProgressiveCalls.SenderAndWaiter | session.go:534-587 | in every interleaving the sending half keeps that shape and the waiting half adds at most one CANCEL of the same call |
| ProgressiveCalls.SendsOnlyAfterProgress | session.go:508-529 | in every interleaving the sending half goes on only after a chunk marked progress that was written, never after an error of the sender or of a write |
| ProgressiveCalls.FirstCallReceives | session.go:546-547 | in every interleaving the first CALL of a call that receives progress carries receive_progress |
| ProgressiveCalls.WholeTraceExactly | session.go:508-531 | in every interleaving the whole wire trace has that shape if and only if the context is not cancelled, or is cancelled while the sending half has more to send and that half writes nothing afterwards |
| ProgressiveCalls.CallAfterCancelOccurs | session.go:616-624 | a run in which a CALL follows the CANCEL |
| ProgressiveCalls.Callee.Invoke | session.go:165-202 | the callee's table and the chunk's SendProgress after one INVOCATION |
| ProgressiveCalls.EntriesAreIndependent | session.go:189-202 | whatever chunks of other calls are interleaved, a call's table entry depends on its own chunks only |
| ProgressiveCalls.EntryLivesUntilFinalChunk | session.go:189-202 | a call that receives progress has its entry if and only if its first chunk was a progress chunk and its last is not a final one without receive_progress |
| ProgressiveCalls.InterleavedChunkGetsSendProgress | session.go:172-198 | among the chunks of any other calls, exactly its chunks marked progress or receive_progress get a SendProgress |
| ProgressiveCalls.TraceThroughCallee | session.go:486-587 | the caller's trace, delivered among the chunks of any other calls: exactly its chunks marked progress or receive_progress get a SendProgress, and the entry is left if and only if the call had a progress chunk and did not end in a final one without receive_progress |
| ProgressiveCalls.FinalChunkKeepsEntry | session.go:200-202 | a trace whose final chunk does leave the entry |
| Subscriptions.StoredAreLive | session.go:652-694 | after any orderly history the handlers stored under an id are exactly those subscribed and not unsubscribed since |
| Subscriptions.StoredAreLiveExactlyWhenOrderly | session.go:652-694 | for every history: the table stores the live handlers of every id at every point, if and only if every UNSUBSCRIBED came in while its id had no live handler |
| Subscriptions.HandlerIsLost | types.go:254-260 | a history in which an UNSUBSCRIBED takes a newly stored handler with it |
| Subscriptions.EventFindsEntryExactlyWhenKnown | session.go:270-275 | an EVENT finds an entry if and only if the id was subscribed after its last UNSUBSCRIBED |
| Subscriptions.Session.Subscribe | session.go:652-689 | refused on a session not established; otherwise a fresh handle joins the handlers of its id and no other id changes |
| Subscriptions.Session.Unsubscribe | types.go:228-267 | refused on a session not established; otherwise UNSUBSCRIBE is sent if and only if no other handler of the id is live, the handle's handler is gone, the others are not touched |
| Subscriptions.Session.Event | session.go:270-281 | each live handler of the id is started exactly once and no other is |
| Registrations.PanicsExactlyWhenTooEarly | session.go:165-168 | in every interleaving with a router that keeps to the protocol the reader panics if and only if it reads an INVOCATION with no Store of its id among the steps before |
| Registrations.NeverPanicsWhenStoredInTime | session.go:165-168 | a run that stores each handler before an INVOCATION of its id is read never panics |
| Registrations.InTableFromStoreToDelete | session.go:406 | in every run the registrations map holds an id if and only if it was stored and not deleted since |
| Registrations.StoredHandlerIsFound | session.go:165-168 | a run in which the stored handler is found |
| Registrations.EarlyInvocationPanics | session.go:400-412 | a run in which the reader is faster than the goroutine that registers |
| QuicListener.RunKeepsInv | server.go:350-473 | every run keeps the account of goroutines, WaitGroups, channels and gates |
| QuicListener.WaitGroupCountsGoroutines | server.go:380-407 | in every reachable state the WaitGroup equals live connection handlers plus live delivery goroutines, and each connection's the live streams of the connection |
| QuicListener.NoSendAfterClose | server.go:366-377 | done, conns and streams are closed at most once; no send hits a closed channel, the WaitGroup never restarts from zero while waited for, and once conns or streams is closed no goroutine is left |
| QuicListener.RawStreamsCarryTheFirstSession | server.go:410-456 | every raw stream delivered carries the first session authenticated on its own connection, attached to the router before; two streams of a connection carry the same |
| QuicStreams.SessionsComeOverWampStreams | server.go:424-456 | in every run a session is attached only over a stream that was peeked as WAMP before, and never as anything else |
| QuicStreams.OnlyRawStreamsAreDelivered | server.go:424-431 | in every run only streams peeked as not WAMP are delivered, each at most once and for its own connection |
| QuicStreams.EnteredCameOverWamp | server.go:438-456 | in every run each session brought to a connection's gate, the first it lets through among them, came over a stream of that connection peeked as WAMP |
| QuicStreams.EndedStreamsHadAReason | server.go:410-436 | in every run a WAMP stream ends refused or with its session, a raw one by its timeout, its delivery or the listener's end |
| QuicStreams.LoopsServeTheirSession | server.go:452-492 | in every run a message loop serves the session its own stream attached, and its delivery was started |
| QuicStreams.SessionsSentWereSpawned | server.go:466-473 | in every run a session is announced only by the delivery its own stream started |
| QuicListener.WindDownRunsAreBounded | server.go:366-409 | any run of winding-down steps is at most as long as the rank it starts with, which the live goroutines determine |
| QuicListener.LiveGoroutines | server.go:366-409 | for every state there is a list of its live goroutines to take that rank over |
| QuicListener.CloseNeverSticks | server.go:350-377 | after Close some goroutine can always take such a step until both channels are closed, without anybody receiving from them |
| QuicListenerClasses.ConnAuth.Authenticated | streamauth.go:29-34 | only the first session is recorded and the gate is opened once |
| QuicListenerClasses.ConnAuth.Wait | streamauth.go:38-46 | it returns the first session, only through the open gate |
| QuicListenerClasses.Listener.Close | server.go:350-354 | the first Close closes done, in whatever state the loop is |
| QuicListenerClasses.Listener.AcceptConnections | server.go:378-387 | each accepted connection is counted and gets its handler, and the loop's end closes done |
| QuicListenerClasses.Listener.CloseChannels | server.go:372-375 | once nothing is counted conns and streams are closed, as the protocol's steps |
| RelayChannel.AppReads | xconn/relay.go:141-185 | in every run the app reads the first message as text, then a prefix of the delivered messages in order with their kinds; nothing is given up before the close; without a failed write or a message over its limit everything queued before the close is read |
| RelayChannel.ReadsInOrderExactlyWithinTheField | xconn/relay.go:56-85 | for every limit: with messages within it the app reads in order in every run, if and only if the length field can hold it |
| RelayChannel.ReadsAllExactlyWithinTheLimit | xconn/relay.go:170-183 | for every limit: with messages within it everything queued before the close is read whenever the writer has finished without a failed write, if and only if the limit is at most the reader's 1 MiB |
| RelayChannel.GivenUpMessageFoundTheQueueFull | xconn/helpers.go:89-99 | in every run a message is given up only after the close, and only if it found the queue full when it came |
| RelayChannel.MessagesAreConserved | xconn/relay.go:156-158 | in every run each message of the channel is delivered, waiting or given up, exactly one of the three |
| RelayBothWays.DrainSafeExactlyWhenNotForwarding | xconn/relay.go:141-221 | once the close is signalled, with an app that sends no more and breaks nothing: no write of the drain fails in any continuation, if and only if the forwarding half is reading or nothing is left to write |
| RelayBothWays.ReadingHalfLosesNothing | xconn/relay.go:141-221 | with the forwarding half reading at the close, everything queued by then has been read when the writer has finished, in every continuation |
| RelayBothWays.GoneExactlyAfterReturning | xconn/relay.go:198-220 | in every run the forwarding half is gone if and only if reading or sending failed or it saw the close while waiting |
| RelayChannel.ChannelRelay.DeliverUnlessClosed | xconn/helpers.go:89-99 | a queue with room takes the message even after the close; a full one blocks it unless closed |
| RelayChannel.ChannelRelay.Relay | xconn/relay.go:166-169 | one frame goes out, or a prefix of it |
| RelayChannel.ChannelRelay.Drain | xconn/relay.go:170-183 | after the close the queued messages are written in order, all of them unless a write failed, and the connection closed |
| Backpressure.NeverAboveHigh | xconn/relay.go:205-220 | in every run and for frames of any size the relay never lifts the send buffer above the high mark |
| Backpressure.NoLostWakeupExactlyWithinTheMarks | xconn/relay.go:47-50 | frames of at most a given size never wait without a token or a crossing to come, in any run, if and only if that size is at most high minus low |
| Backpressure.StarvingRunStarves | xconn/relay.go:205-211 | for every longer frame size the reader accepts there is a run that waits with neither |
| Backpressure.StarvedUntilClosed | xconn/relay.go:205-211 | and then only closing the channel ends the wait |
| Backpressure.EmptyBufferFreesTheRelay | xconn/relay.go:187-211 | otherwise an emptied buffer and its callback take the relay to the send by its own steps |
| Backpressure.DataChannel.SendWhenRoom | xconn/relay.go:205-220 | the wait and the send are steps of the protocol, whatever happens around them; a frame that fits is sent at once, and the loop ends only at the close or a failed send |
| Backpressure.DataChannel.Forward | xconn/relay.go:198-221 | what is sent is a prefix of the frames on the connection, all of them when nothing failed, and the high mark holds |
| RealmSteps.ClientsReceiveASubsequence | realm.go:184-243 | over every interleaving and for any dealer and broker, what a client received is picked from what was addressed to it in order and without repetition; a message was dropped if and only if the client refuses it, or had been closed before, or as many messages as the queue holds were queued before it and not taken |
| RealmSteps.RefusedEventIsDropped | peer.go:574-577 | a run in which an attached, open subscriber with an empty queue does not get an event it refuses |
| RealmSteps.HandedAfterItsCheck | realm.go:245-286 | in every interleaving each CALL, REGISTER, SUBSCRIBE and PUBLISH, by these names, handed to dealer or broker passed its own check at an earlier point that permitted it; at the hand-over it was permitted if and only if the role and authorizer changes in between left it so; and its deliveries are what the dealer or broker answered then |
| RealmSteps.OthersAreNeverDenied | realm.go:262-275 | in every interleaving a YIELD, UNREGISTER, ERROR, CANCEL or UNSUBSCRIBE is never denied, and handed over by the time it has ended |
| RealmSteps.RemovedRoleStillHandsOver | realm.go:249-254 | a run that stands at the hand-over of a CALL whose role was removed after the check |
| RealmSteps.PermittedAtHandOverExactlyWithoutRevoking | realm.go:70-96 | for every set of administrative changes: messages always are permitted at their hand-over if and only if no role is removed and no authorizer set or cleared |
| RealmSteps.NeverPanicsExactlyWithoutClearing | realm.go:123-130 | for every set of administrative changes: no message's handling panics on its second look at the authorizer if and only if the authorizer is never cleared |
| RealmSteps.DeniedWasRefusedTwice | realm.go:117-142 | in every interleaving a denied message was refused by the roles at one point and by the authorizer at a later one, whose words the ERROR carries |
| RealmSteps.DeniedTellsOnlyItsSender | realm.go:133-153 | in every interleaving a denied message is handed to nobody, and all it ever writes is one ERROR with its kind and request id to its sender, or nothing for an unacknowledged PUBLISH; a gated message that ends otherwise was handed over |
| RealmSteps.PublishReachesTheAttached | realm.go:286-321 | in every interleaving a finished PUBLISH offered the event to exactly the recipients found attached, in order and once per mention, and then the acknowledgement, whatever queues were full or closed or refused it |
| RealmSteps.PublishedAsTheBrokerAnswered | realm.go:286-321 | in every interleaving a finished PUBLISH followed the broker's answer of its hand-over: the event for each recipient named, in order, then the acknowledgement if there is one; nothing on an error |
| RealmSteps.CancelStopsAtTheFirstError | realm.go:155-182 | in every interleaving a finished CANCEL followed the dealer's answer in order up to the first write that was an error, and stopped short of it only there |
| RealmSteps.GoodbyeClosesItsSender | realm.go:322-334 | in every interleaving a GOODBYE is answered by one to its sender, which is closed then unless that write was an error |
| RealmSteps.FoundExactlyTheAttached | realm.go:291-293 | each recipient was looked up at its own point of the run, and found if and only if attached then |
| RealmSteps.NetworkFailureAnswersAFullCall | realm.go:204-216 | in every interleaving each failure ERROR answers a CALL of that very client, by its request id, whose callee's queue was full |
| RealmSteps.FullCallIsTold | realm.go:204-216 | a finished CALL told its caller so if and only if the callee's queue was full and the caller was not missed |
| RealmSteps.CallerGoneExactlyWhenDetached | realm.go:207-208 | the caller was looked up at a point of its own in the run, and missed if and only if not attached then |
| RealmSteps.StepsAloneAreReceive | realm.go:245-338 | with nothing in between, the steps of a message do to the realm exactly what ReceiveMessage does |
| RealmDispatch.PublishPerClient | realm.go:286-321 | a PUBLISH with nothing in between puts on each attached client's queue exactly what is for it and not refused, in order as far as there is room, and changes no other queue |
| RealmDispatch.RealmServer.TryWriteMessage | peer.go:237-244 | a message is put on the one queue, or refused, or dropped because the queue is closed or full |
| RealmDispatch.RealmServer.IsAuthorized | realm.go:98-115 | true if and only if some permission of the role has the flag of the message's kind and a URI equal to, a prefix of, or by wildcard matching the message's, as its policy says |
| RealmDispatch.AskByKind | realm.go:245-290 | which of dealer and broker a message of each kind goes to, and what of the answer is to be delivered in which order |
| RealmDispatch.RealmServer.Authorize | realm.go:117-153 | true if and only if the role or the authorizer permits; otherwise one ERROR is offered, when one is to be sent |
| RealmDispatch.RealmServer.HandleDealerBoundMessage | realm.go:184-219 | the dealer is asked, its message delivered if the recipient is attached, and the caller of a CALL told when the queue was full |
| RealmDispatch.RealmServer.HandleCancel | realm.go:155-182 | the messages of a CANCEL go out in order, past recipients that have gone and full queues, up to the first that is refused or finds the client closed |
| RealmDispatch.RealmServer.HandleBrokerBoundMessage | realm.go:221-243 | the broker is asked and its message delivered if the recipient is attached |
| RealmDispatch.RealmServer.HandlePublish | realm.go:286-321 | the loop over the recipients and the acknowledgement are the delivery of the theorems above |
| RealmDispatch.RealmServer.ReceiveMessage | realm.go:245-338 | every kind of message does to the realm what its steps by themselves do; a CALL, REGISTER, SUBSCRIBE or PUBLISH that is not permitted leaves dealer, broker and every other session as they were and offers its sender one ERROR, or nothing for an unacknowledged PUBLISH; a GOODBYE closes its sender |
| Authenticator.AcceptsExactlyTheKeySets | xconn/auth.go:41-62 | after any events, adds being for known authids, a pair is accepted if and only if it is in the map of key sets the events describe, and no request panics |
| Authenticator.AcceptedWithThePrincipalsRole | xconn/auth.go:53-56 | after any events whoever is accepted is accepted with the role of the principal set for the authid |
| Authenticator.RemovingTheLastKeyForgets | xconn/auth.go:165-181 | a remove event makes an authid unknown if and only if it names all its keys; the keys it spares are still accepted, those it names are not |
| Authenticator.StoreKeepsTheLast | xconn/auth.go:64-72 | of the principals with an authid in the list the store keeps the last, with its role and keys |
| Authenticator.RunRefines | xconn/auth.go:87-181 | the store of key lists refines that map over any run of events |
| Authenticator.NoNilExactlyWhenAddsKnown | xconn/auth.go:87-181 | over every run of events no principal becomes nil if and only if every add is for an authid known at that point |
| Authenticator.PanicFreeExactlyWhenCareful | xconn/auth.go:87-181 | for every run of events: none panics if and only if every remove carries its argument and none works on an authid that was unknown when it was added to |
| Authenticator.NoEventPanics | xconn/auth.go:87-181 | in particular when every add is for a known authid and every remove carries its argument |
| Authenticator.AddForUnknownPanics | xconn/auth.go:101-107 | an add makes its authid panic if and only if it was unknown, whatever events follow |
| Authenticator.RemoveNamedStep | xconn/auth.go:154-181 | each authid of a remove event takes away its own keys only, so the order of the map iteration does not matter |
| Authenticator.FilterInPlace | xconn/auth.go:165-170 | filtering into the slice being read leaves exactly the keys to keep, in order |
| Authenticator.KeyAuthenticator.SetPrincipals | xconn/auth.go:64-72 | the store is that of the list, a later principal replacing an earlier one of the same authid |
| Authenticator.KeyAuthenticator.Authenticate | xconn/auth.go:41-62 | the answer is the store's: unknown authid, unknown key, accepted with the role, or a panic on a nil principal |
| Authenticator.KeyAuthenticator.HandleAddKey | xconn/auth.go:101-107 | the store changes by the add event |
| Authenticator.KeyAuthenticator.KeysToKeep | xconn/auth.go:160-170 | the keys of a principal that are not to be removed, in order |
| Authenticator.KeyAuthenticator.RemoveFrom | xconn/auth.go:154-181 | one authid loses the named keys, and its entry with the last of them |
| Authenticator.KeyAuthenticator.HandleRemoveKey | xconn/auth.go:135-181 | it panics if and only if the event has no argument or, decoded and the file readable, names a nil principal; otherwise the store changes by the event |
| Authenticator.KeyAuthenticator.RemoveBatch | xconn/auth.go:154-181 | in any iteration order the store loses the keys named, unless a named principal is nil |
| CallerSessions.SessionsAreConserved | xconn/bridge.go:25-63 | in every interleaving of get, leave and leaveAll each opened session is live for one caller, held by one leaver, or left, exactly one of the three and left at most once; no two callers share one |
| CallerSessions.GetsAgreeUntilLeave | xconn/bridge.go:25-41 | gets of a caller return the same session until a leave of it or of all |
| CallerSessions.TakenSessionsStayWithTheirLeaver | xconn/bridge.go:44-63 | a session a leaver took is left by it, or still can be, in every continuation |
| CallerSessions.AllLeftExactlyWithoutLateGets | xconn/bridge.go:25-63 | in every interleaving, when every leaver is done, every session opened has been left if and only if no caller opened one since its last leave |
| CallerSessions.LateGetLeaks | xconn/bridge.go:25-63 | a get after the last leave leaves a session that nobody leaves |
| CallerSessions.Sessions.Get | xconn/bridge.go:25-41 | undisclosed callers get the shared session; others the session they have, or else the one opened now, which is theirs from then on |
| CallerSessions.Sessions.LeaveCaller | xconn/bridge.go:44-53 | exactly the caller's session is removed and left |
| CallerSessions.Sessions.LeaveAll | xconn/bridge.go:55-63 | every session is removed and left exactly once, in any order |

## Left out

- Broker, dealer, message classes, id generation and RawSocket header bits: in `wampproto-go`, not part of this model. Broker and dealer are arbitrary functions, request ids fresh numbers, and a RawSocket header a kind byte and a 24-bit length.
- Time: the cancel acknowledgement timer, the one-second limit of an in-memory Close and the five seconds of a raw stream are choices of the run that may happen at any moment. The 10-second request timeouts are not followed; a late reply of such a request is one of the messages that end the reader.
- Requests to register, unregister, publish and the wire half of subscribe: which channel their replies go to. Unlike for calls an unknown reply ends the reader; the tables they fill are in Subscriptions and Registrations.
- Registrations.PanicsExactlyWhenTooEarly: an unregister that timed out, whose late UNREGISTERED ends the reader, is not followed.
- Invocation contexts and INTERRUPT (session.go:203-268), and serialization errors of a session's own requests.
- The reader's own send of a pong when ctrlChan is full after the writer has ended (peer.go:675): pongs are queued while there is room.
- WebSocket, TLS, QUIC, WebTransport and WebRTC setup, handshakes, keepalive, raw stream splicing, session logging, management, meta procedures, argument parsing and the configuration tools: plumbing over libraries, or easy members.
- `path.Match` behind the wildcard policy is an arbitrary predicate.
- JSON and the principals file (xconn/auth.go:109-133, 183-196), and the concurrent, partly unlocked use of the principal map: the events and requests come one at a time. Arguments of an add event that are missing or no strings are empty strings.
- Realm attach, detach and shutdown are only what they do to the clients; errors returned to the transport are not followed.
- RealmDispatch.PublishPerClient: takes nothing to happen in between; PublishReachesTheAttached and ClientsReceiveASubsequence say what holds in every interleaving.
- RealmSteps.HandedAfterItsCheck: one call of the dealer or broker is one step, as are the look at all permissions of a role and one TryWrite, which takes the client's lock; the authorizer's answer does not depend on anything else in the realm.
- CallSession.ClosedLeaveChanFreesCalls: says that the return step is enabled, not that the scheduler takes it; a call still inside the connection's Write is not in its select.
- CallSession.DisconnectClosesLeaveChan: takes the on-leave listener to return, and says nothing about GOODBYEs after the first, which may block the reader when nobody takes them.
- LocalPeers.FarEndReads: Write and Close are atomic sections under their lock; the lock itself is in LocalPeerLocks.
- RelayChannel.AppReads: starts when the first message has been written whole; a failure of that write ends the relay at once.
- RelayBothWays.DrainSafeExactlyWhenNotForwarding: takes an app that sends nothing after the close; a frame it does send may end the forwarding half like one that waits for room.
- Streams.WriteRelayFrame: relies, like the code, on a connection that reports an error with every short write; so do WriteMsg and the in-memory peer's length.
- RawSocketPeers.FarEndReceivesPrefixOfAccepted: is about messages that the 24-bit field can hold.
- RawSocketPeers.ReadsBackExactlyBelowSixteenMiB: assumes that the header, which is in `wampproto-go`, keeps the low 24 bits of a length and drops the rest; so does SixteenMiBReadsAsEmpty.
- RawSocketProtocol.TryWriteAndCloseNeverStick: takes the connection's writes to return, as short or failing as they like.
- QuicListener.CloseNeverSticks: takes the connections' streams to end and Accept to fail once the listener is closed.
- QuicListener.RawStreamsCarryTheFirstSession: the capacities of the accept channels are not modelled; a send may go through at any time.
- Authenticator.FilterInPlace: is proved on an array of its own; the store holds key sequences, so principals that share a backing array are not modelled.
- Authenticator.KeyAuthenticator.HandleRemoveKey: says what the store is when it does not panic; a panic leaves the authids gone through before it changed.
- Subscriptions.Session.Unsubscribe: API calls and messages come one at a time; StoredAreLiveExactlyWhenOrderly says what happens otherwise.
