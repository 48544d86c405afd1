# Verified model of a stream multiplexer, range sets, in-memory pipes and text spans

This project models the parts of the repository whose behaviour is hardest to see from
the code, and proves what they promise.

- **mux**: one peer as a state machine over its handle calls and driver actions
  (`StreamModel`, `PeerModel`), its invariants (`PeerInvariants`, `PeerRuns`) and what
  they mean (`PeerTheorems`, `PeerClosing`). Two peers over two FIFO links are a second
  machine (`TwoPeers`), in which every interleaving of steps and deliveries is a run. One
  stream id seen from both ends (`LaneModel`) carries the delivery and credit invariants,
  and `LaneView` and the `TwoPeers...` files show that the system moves every lane by
  lane steps only; `TwoPeersWitnesses` builds runs that reach the odd cases. One peer
  against any remote accounts for every byte it accepted (`PeerAccounts`), and each of its
  answers to a caller or to a frame is pinned (`PeerAnswers`). The code's
  objects are classes: `FlowControl`, `ReceiveBuffer`, `Endpoint` (registry, stream handles,
  actions of the driver), `FrameIo` (resumable reader and writer), `ClosingFuture`,
  `ConnectionStates`. Each method of `Endpoint` is proved to be the step of the peer model
  that it stands for, and the driver loop, which runs it over a socket (`ActiveDriver`), to
  be a run of that model. `TornWriter` runs it over a socket with one error.
- **rangeset**: merge iterators over forward-only sources, nested to any depth
  (`RangeIterators`, `RangeRelations`; their proofs are in `RangeSources`, `RangeUnion`,
  `RangeDifference`, `RangeIntersection`, `RangeSymmetricDifference`), the in-place set
  operations and greedy cover, all against plain sets of values.
- **futures-plex**: the ring buffer against a queue of bytes (`PlexRing`), and the
  lock-free close as interleaved atomic steps (`PlexClose`).
- **spansy**: selecting from views (`SpanView`), and the chunked body of section 7.1 of
  RFC 9112 (`ChunkSize`, `ChunkedBody`, `ChunkedParser`, `ChunkedContent`).

Conventions. Integers are unbounded, so each machine bound is written out (`U32_MAX`,
`USIZE_MAX`); `FlowControl` uses machine-width types and thereby shows that nothing
overflows. Clocks and round-trip times enter as the Boolean inputs `tune` and `fast`, ping
nonces as arbitrary numbers, sockets as scripts of answers. Wakers are Boolean flags of a
record or, for the pipe, task numbers. Fields called `hist`, `accepted`, `taken` and
`events`, and `sent`, `left`, `intact` and `overReported` of the writer, record what has
happened; no operation reads them. A socket lies if it claims more bytes than it was
offered.

## What the proofs found

1. The comment at `mux/mux/src/connection/active.rs:53-57` says that owed closes can push
   the slots in use over the limit for a moment. They cannot: the driver moves an owed
   close out before it reads the socket or serves a queue, so streams and owed closes
   together never exceed the limit, and at most one close is owed
   (`PeerTheorems.SlotsNeverExceeded`).
2. A read of zero bytes parks even while data is buffered, and only such a read does
   (`PeerTheorems.ReadParksOnDataOnlyIfEmpty`).
3. A handle that is closed before its stream is active, and whose id the remote then
   opens, is reaped without a FIN or RST ever being sent
   (`PeerTheorems.SilentReapAfterEarlyClose` is such a run). Reaping owes a close exactly
   if neither a local close nor a remote reset came before
   (`PeerTheorems.ReapOwesCloseIff`), and tells the remote something new exactly then;
   after a close of the active stream the remote is told in any case
   (`PeerTheorems.NoSilentReap`).
4. A handle closed that early which then writes claims a slot although the write fails.
   A later close sends a FIN without a SYN before it, so that "only an opening frame meets
   a peer that has no entry" is false: `TwoPeersWitnesses.FinWithoutSyn` is a run in which
   such a FIN is on its way. The first frame for an unknown id says SYN if and only if its
   handle was not closed early, and carries nothing otherwise
   (`TwoPeersTheorems.FirstFrameOpens`).
5. The branch of `poll_activate` that adopts a peer-opened entry is never taken
   (`PeerRuns.AdoptionNeverHappens`).
6. The setting `read_after_close` changes no read in any reachable state
   (`PeerClosing.ReadAfterCloseChangesNothing`).
7. An opening frame that arrives after its id was reaped makes an entry that nobody will
   claim. Its windows still cannot overflow, since the reverse window has grown at most
   twice by then (the `Bounds` part of `LaneModel.LaneInv`).
8. The stream limit is answered with the protocol error code 1
   (`mux/mux/src/connection/active.rs:794-803`); the protocol document calls for another
   code. The model follows the code. Two peers that both keep their own limit can run
   into it: each opens its last slot before it hears of the other's
   (`TwoPeersWitnesses.TableFullHappens`).
9. The close of a pipe depends on the flag going up before the waker is taken: the other
   order loses a wakeup (`PlexClose.TakingFirstLosesAWakeup`).
10. After a connection has failed, polling it again reports success
    (the clause of `ConnectionStates.Connection.Poll` about a closed state).
11. A socket that is given back need not carry what was accepted. The driver takes a
    writer that answers with an error for a ready one
    (`mux/mux/src/connection/active.rs:530-556`), and `start_send` does not look
    (`mux/mux/src/frame/io.rs:171-180`): if a frame is waiting, it is started over one that
    is half out, and the error is forgotten. `TornWriter.LoseByte` is such a run of a
    `Connection`: one error behind the first byte of a ping, and a connection that has
    accepted a byte ends as after a good close, while the remote reads a ping that nobody
    sent and then an unknown frame type. The exact condition: the remote decodes just the
    frames that were sent if and only if the writer stayed intact
    (`ConnectionStates.Connection.SocketBackMeansDelivered`), that is, if and only if no
    frame was started while bytes of the one before it were left
    (`FrameIo.Io.IntactMeans`, `FrameIo.Io.StartSend`). For a socket that never claims more
    bytes than it was offered this is so if and only if no pass of the driver starts a
    frame when the writer has just reported an error (`Exact` and `Torn` in
    `ActiveDriver.PollActive` and `ConnectionStates.Connection.Poll`).

## Model

| member | source | states |
|---|---|---|
| StreamModel.StateIsJoinOfEvents | mux/mux/src/connection/stream.rs:475-508 | after any list of half-close events the closed halves are those of the start joined with those of the events |
| StreamModel.OrderOfEventsIsIrrelevant | mux/mux/src/connection/stream.rs:475-508 | two lists with the same events lead to the same state, whatever their order |
| StreamModel.GrantKeepsWindows | mux/mux/src/connection/stream/flow_control.rs:45-133 | a grant keeps the windows in bounds, at most doubles the maximum, stays in the connection budget, is at least half the window and tops the window up exactly |
| StreamModel.GrantDoubles | mux/mux/src/connection/stream/flow_control.rs:45-133 | credit is granted if and only if half of the window is free; a tuned window doubles unless a `u32` or the connection window ends first, another one stays |
| FlowControl.FlowController.constructor | mux/mux/src/connection/stream/flow_control.rs:22-38 | a new controller has the default windows and its budget relation |
| FlowControl.FlowController.Tune | mux/mux/src/connection/stream/flow_control.rs:90-107 | the tuned maximum in machine integers is the mathematical one, without overflow: the double, unless a `u32` or the connection window ends first |
| FlowControl.FlowController.NextWindowUpdate | mux/mux/src/connection/stream/flow_control.rs:45-133 | grants or refuses as the model does, changes windows and shared budget by exactly that, and never over- or underflows |
| FlowControl.SendOver | mux/mux/src/connection/stream/flow_control.rs:180-203 | with the two windows equal, what the sender has credit for always fits the receiver, neither side panics, and the windows stay equal |
| FlowControl.Replenish | mux/mux/src/connection/stream/flow_control.rs:45-133 | credit that is granted always fits the sender, the windows stay equal, and with what is buffered they then make up the maximum |
| FlowControl.FlowController.ConsumeReceiveWindow | mux/mux/src/connection/stream/flow_control.rs:198-203 | data within the window moves from window to buffer, the invariant holding for the longer buffer |
| FlowControl.FlowController.Drop | mux/mux/src/connection/stream/flow_control.rs:206-218 | dropping gives back exactly the window beyond the default, without underflow |
| FlowControl.TunedFits | mux/mux/src/connection/stream/flow_control.rs:90-110 | the tuned window does not shrink and what it adds fits the connection budget |
| FlowControl.LimitFits | mux/mux/src/connection/stream/flow_control.rs:96-110 | the per-stream limit and the new total fit a `usize` |
| ReceiveBuffer.Chunks.Len | mux/mux/src/chunks.rs:36-38 | the cached length and the cursor give the number of unread bytes |
| ReceiveBuffer.Chunks.Push | mux/mux/src/chunks.rs:41-48 | pushed bytes come to stand behind all others |
| ReceiveBuffer.Chunks.Pop | mux/mux/src/chunks.rs:51-55 | the first chunk's unread bytes leave the front and the rest stays |
| ReceiveBuffer.Chunks.AdvanceFront | mux/mux/src/chunks.rs:92-103 | moving the cursor drops exactly that many bytes off the front |
| ReceiveBuffer.Chunks.Read | mux/mux/src/connection/stream.rs:250-266 | the copy loop returns the longest prefix that fits and leaves the rest |
| PeerRuns.AdoptionNeverHappens | mux/mux/src/connection/stream.rs:204-210 | an inactive handle's id is never among the active ones, so there is never an entry to adopt |
| PeerRuns.StepKeeps | mux/mux/src/connection/active.rs:518-647 | every handle call, driver action and incoming frame, well behaved or not, keeps the peer's invariants |
| PeerRuns.RunKeeps | mux/mux/src/connection/active.rs:518-647 | so does every run |
| PeerTheorems.SlotsNeverExceeded | mux/mux/src/connection/active.rs:103-107 | active streams and owed closes never exceed the limit, at most one close is owed, active and inactive ids are disjoint |
| PeerTheorems.NoSlotLeaks | mux/mux/src/connection/active.rs:659-727 | every registered record has a live handle, an end-of-queue notice to come, or is peer-opened and unclaimed |
| PeerTheorems.HandlesHoldTheRegisteredRecord | mux/mux/src/connection/active.rs:173-205 | a live handle always holds the record registered under its id, activated exactly if the id is active |
| PeerTheorems.BufferedWithinConnectionWindow | mux/mux/src/lib.rs:247-268 | the budget is the sum over live streams, and all bytes buffered by active streams fit the connection window |
| PeerTheorems.WindowsWithinBounds | mux/mux/src/connection/stream/flow_control.rs:135-174 | every stream's credit plus buffered bytes fit its maximum, a `u32`; its state is the join of its events |
| PeerTheorems.ParkedTasksHaveReasons | mux/mux/src/connection/stream.rs:193-286 | a slot waiter means no free slot, a parked writer no credit and no reset, a parked reader an empty readable stream with over half its window granted |
| PeerTheorems.ReadParksOnDataOnlyIfEmpty | mux/mux/src/connection/stream.rs:237-286 | with data buffered a read parks if and only if it asks for nothing |
| PeerTheorems.ReapOwesCloseIff | mux/mux/src/connection/active.rs:684-726 | a reap owes a close frame if and only if nothing closed the sending half before |
| PeerTheorems.ReapOwesKind | mux/mux/src/connection/active.rs:690-712 | the close that is owed is a FIN if the remote had finished sending, and a reset otherwise |
| PeerTheorems.NoSilentReap | mux/mux/src/connection/active.rs:659-727 | a reap leaves the remote told if and only if it was told before or the sending half was open; it is always told if the active stream was closed, or neither an early close nor a reset came |
| PeerTheorems.SilentReapAfterEarlyClose | mux/mux/src/connection/stream.rs:355-377 | a run in which an activated stream is reaped after an early close and the remote never told |
| PeerClosing.ReadDrainsThenEnds | mux/mux/src/connection/active.rs:434-443 | once the channels are shut a read gives what is buffered and then the end, never `Pending` |
| PeerClosing.WriteMeetsShutChannel | mux/mux/src/connection/stream.rs:212-221 | a write then fails instead of waiting for a slot or for credit |
| PeerClosing.NobodyWaitsAfterClose | mux/mux/src/connection/active.rs:434-471 | in every state after the close no task is parked, and no read, write or close will park |
| PeerClosing.ReadAfterCloseChangesNothing | mux/mux/src/lib.rs:215-220 | the setting makes no difference to any read in any reachable state |
| PeerClosing.NobodyWaitsAfterError | mux/mux/src/connection/active.rs:890-923 | after an error, buffered data can be read, then the end; writes fail, closes return |
| LaneModel.DataFits | mux/mux/src/connection/active.rs:816-836 | for both ends in step, a data frame that arrives fits the receiver's window |
| LaneModel.CreditFits | mux/mux/src/connection/active.rs:841-869 | credit that arrives fits the sender's `u32` window, even for an entry made by a late opening frame |
| TwoPeersSafety.DeliveryAccepted | mux/mux/src/connection/active.rs:746-868 | a delivered frame never panics, and is answered with termination if and only if it opens a stream and the table is full |
| TwoPeersPings.PongIsAwaited | mux/mux/src/connection/active.rs:871-876 | a reply that arrives carries the nonce that its receiver waits for |
| TwoPeersTheorems.RunKeeps | mux/mux/src/connection/active.rs:518-647 | every run of two connected peers keeps the system invariant |
| TwoPeersTheorems.FlipRun | mux/mux/src/connection/active.rs:518-647 | runs are symmetric in the two sides, so each result below holds in both directions |
| TwoPeersTheorems.DeliveredInOrder | mux/mux/src/connection/active.rs:746-839 | bytes written are bytes read, then buffered, then under way: none lost, repeated or reordered |
| TwoPeersTheorems.CreditConserved | mux/mux/src/connection/stream/flow_control.rs:176-203 | the receiver's window is the sender's window plus data and credit under way |
| TwoPeersTheorems.NoCreditStall | mux/mux/src/connection/stream.rs:160-185 | with nothing under way and a parked reader that could grant, the sender has credit and is not parked |
| TwoPeersTheorems.DeliveryTerminatesIffTableFull | mux/mux/src/connection/active.rs:763-814 | a delivery ends the connection if and only if it opens a stream for which no slot is left |
| TwoPeersTheorems.TerminatesIffTableFull | mux/mux/src/connection/active.rs:791-803 | in every run that is the only step that ends it, and no step panics |
| TwoPeersTheorems.EofMeansEverythingRead | mux/mux/src/connection/stream.rs:268-280 | a reader that gets the end before its own side closes, be it after the remote's goodbye, has read all that was ever written, and no more can be |
| TwoPeersTheorems.FirstFrameOpens | mux/mux/src/connection/active.rs:763-776 | the first frame for an id unknown to its receiver says SYN if and only if its handle was not closed early, and carries nothing otherwise |
| TwoPeersWitnesses.FinWithoutSyn | mux/mux/src/connection/stream.rs:193-232 | for any two configurations, a run in which a FIN that no SYN went before is about to meet a peer without an entry |
| TwoPeersWitnesses.TableFullHappens | mux/mux/src/connection/active.rs:788-803 | a run of two conforming peers in which a delivery finds the table full and terminates |
| TwoPeersTheorems.CloseSendsEverything | mux/mux/src/connection/closing.rs:62-114 | a closing peer whose backlog is flushed has sent every accepted byte of every stream in order, and a goodbye last |
| TwoPeersTheorems.GoodbyeComesAfterTheData | mux/mux/src/connection/closing.rs:85-114 | when the goodbye is next to be read, all that was written to an unreaped stream is in its reader's hands |
| Endpoint.Connection.NewStream | mux/mux/src/connection/active.rs:173-205 | opening shares the id's record if there is one, else makes an inactive one, and gives the handle a command channel |
| LaneView.ClaimView | mux/mux/src/connection/active.rs:157-171 | claiming a slot turns the idle end of that stream into a live one that owes a SYN; no other stream and no frame changes |
| Endpoint.Connection.PollActivate | mux/mux/src/connection/stream.rs:193-232 | activation as in the model: done, claimed with SYN pending, or parked for a slot |
| Endpoint.Connection.PollWrite | mux/mux/src/connection/stream.rs:291-347 | a whole write call is the model's write step, of which `PeerAnswers.WriteMeans` says what it answers |
| LaneView.SentView | mux/mux/src/connection/stream.rs:299-346 | what is sent is within the window and taken from it, says SYN if that was owed, and stands last in its own stream's line; no other stream changes |
| LaneView.WriteView | mux/mux/src/connection/stream.rs:291-347 | a whole write call is one lane step of its stream: nothing, a claim, or one data frame |
| LaneView.GrantView | mux/mux/src/connection/stream.rs:160-185 | a window update is one lane step of its stream: nothing, or a grant within the windows with its frame |
| Endpoint.Connection.PollRead | mux/mux/src/connection/stream.rs:237-287 | a whole read call is the model's read step, of which `PeerAnswers.ReadMeans` says what it answers |
| LaneView.TakeView | mux/mux/src/connection/stream.rs:249-286 | a read is one lane step of its stream: it takes the front of what arrived, or changes nothing that the lane sees |
| LaneView.ShutView | mux/mux/src/connection/stream.rs:355-391 | closing is one lane step of its stream: shut without a frame while idle, else shut with a FIN behind all that was written |
| PeerAnswers.WriteMeans | mux/mux/src/connection/stream.rs:291-347 | in every state, a write answers with a number if and only if the stream has or gets a slot, can be written, has credit and room in its channel; the number is that of the bytes taken, which are the first ones offered, are logged and queued in one frame, and are all of them unless the window or the split size is smaller; otherwise the call has failed or is parked, for the reason stated |
| PeerAnswers.ReadMeans | mux/mux/src/connection/stream.rs:237-287 | a read gives bytes if and only if it asks for some and some are buffered: the front of the buffer, as many as asked for or all; else it ends if nothing can come any more and is parked if something can |
| PeerAnswers.ReadGrants | mux/mux/src/connection/stream.rs:160-185 | a read queues a window update if and only if the stream can receive, its channel has room and half of the window was free before the read; the credit is what the window grows by |
| PeerAnswers.ShutMeans | mux/mux/src/connection/stream.rs:355-391 | a close is silent while the stream is inactive or closed both ways, else it puts a close command behind all else, fails on a shut channel or waits for room; it leaves the receiving half as it was |
| Endpoint.Connection.SiblingAlive | mux/mux/src/connection/active.rs:659-682 | a stream survives the end of one queue if and only if some handle still holds its record |
| PeerRuns.ReapInactiveKeeps | mux/mux/src/connection/active.rs:681-688 | forgetting an inactive record keeps every invariant: the budget is again the sum over the records that are left |
| PeerRuns.ReapActiveKeeps | mux/mux/src/connection/active.rs:684-726 | so does reaping an active stream: no slot more is in use, what it owes is staged, and the budget is the sum over what is left |
| LaneView.ReapView | mux/mux/src/connection/active.rs:659-727 | and it is one lane step of its stream: it leaves quietly, or with the one close frame that its state owes |
| Endpoint.Connection.OnDropStream | mux/mux/src/connection/active.rs:659-727 | the end of a queue is the model's reaping step |
| PeerRuns.ResettingKeeps | mux/mux/src/connection/active.rs:131-143 | a reset from the remote keeps every invariant, in any state and for any id |
| LaneView.AdmitView | mux/mux/src/connection/active.rs:805-814 | an opening frame makes the stream live with the record it had, or a new one; no other stream changes |
| Endpoint.Connection.DeliverData | mux/mux/src/connection/active.rs:816-838 | a body over the window terminates; otherwise what leaves the window is what the buffer gains, so their sum does not change |
| Endpoint.Connection.OnData | mux/mux/src/connection/active.rs:746-839 | all the cases of a data frame, with their errors |
| PeerRuns.CreditingKeeps | mux/mux/src/connection/active.rs:841-869 | a window update keeps every invariant, whether its credit fits or not |
| Endpoint.Connection.OnFrame | mux/mux/src/connection/active.rs:729-744 | dispatch by frame type, and nothing once terminating |
| PeerAnswers.ReceiveMeans | mux/mux/src/connection/active.rs:729-886 | a frame ends the connection exactly if it is data for the session, data beyond the window, an opening frame beyond the default credit or without a free slot, or a reply to no ping; it hangs up exactly if it is a goodbye, with its code, and panics exactly if its credit overflows; a ping for the session or a known stream is noted for an answer |
| PeerAnswers.PingRoundTrip | mux/mux/src/connection/active.rs:871-886 | a ping is answered with its own number by the next frame sent, and that answer settles it |
| PeerAnswers.GoodbyeLeaves | mux/mux/src/connection/active.rs:729-744 | a goodbye ends the active state with its own code and does nothing else |
| Endpoint.Connection.Receive | mux/mux/src/connection/active.rs:618-640 | what the driver notes for each outcome of a frame |
| TwoPeersPaths.EmitPath | mux/mux/src/connection/active.rs:536-556 | whichever frame goes out first, no stream's line of frames changes: sent, then staged, then queued |
| TwoPeersPaths.OwedPath | mux/mux/src/connection/active.rs:565-586 | nor does it when an owed close becomes the outbound frame |
| TwoPeersPaths.TakePath | mux/mux/src/connection/active.rs:589-601 | nor when a command is taken from its channel |
| Endpoint.Connection.StopStreams | mux/mux/src/connection/active.rs:458-471 | closing marks every registered stream as not receiving and wakes whoever is parked |
| Endpoint.Connection.ShutChannels | mux/mux/src/connection/active.rs:445-457 | every command channel is adopted and shut, those not yet adopted by the driver included |
| Endpoint.Connection.TakePendingFrames | mux/mux/src/connection/active.rs:475-496 | what is staged is handed over in the order of sending, owed closes included |
| PeerAnswers.StagedInOrder | mux/mux/src/connection/active.rs:536-556 | what is staged goes out from the front: termination, pong, stream frame, until nothing is staged |
| PeerAnswers.StagedIsHandedOver | mux/mux/src/connection/active.rs:475-496 | a close hands over the same frames in the same order, the owed closes behind |
| PeerAnswers.CloseKeepsRecords | mux/mux/src/connection/active.rs:434-471 | a close ends receiving on every stream and changes neither what is buffered nor what is queued nor whether it can be written |
| Endpoint.Connection.Close | mux/mux/src/connection/active.rs:421-432 | close is the model's closing step |
| Endpoint.Connection.DropAllStreams | mux/mux/src/connection/active.rs:890-923 | after an error every stream is closed and forgotten, every channel shut, everyone woken |
| Endpoint.Connection.SendOne | mux/mux/src/connection/active.rs:530-556 | a writable socket takes a due ping or the next frame, which is one step of the model |
| Endpoint.Connection.ServeOwed | mux/mux/src/connection/active.rs:565-586 | an owed close is served if there is one, before any queue |
| Endpoint.Connection.ServeQueue | mux/mux/src/connection/active.rs:588-612 | one command or end of queue is served if any adopted channel has one |
| Endpoint.Connection.AdoptAll | mux/mux/src/connection/active.rs:520-526 | all channels opened since the last round are adopted |
| PeerAccounts.StepAccountable | mux/mux/src/connection/active.rs:518-647 | whatever the remote sends, every step of a peer that has not closed keeps its account: per stream, what was sent, staged and queued are the bytes it accepted, in order |
| PeerAccounts.RunAccountable | mux/mux/src/connection/active.rs:518-647 | and so does every run |
| ActiveDriver.SendReady | mux/mux/src/connection/active.rs:530-556 | a ready writer, or a failing one, is given exactly the frame that the peer sends; as long as the socket does not lie, a frame is torn if and only if the writer reported an error |
| ActiveDriver.ReadNext | mux/mux/src/connection/active.rs:617-643 | a frame read is the first of the input; without one the connection is closed if and only if the input ended between two frames, it has failed only on an error of the socket or an input that cannot be read on, and it waits only if the socket has no more |
| ActiveDriver.PollActive | mux/mux/src/connection/active.rs:518-647 | the loop terminates over any socket; it is a run of the model whose receipts are the frames encoded at the front of the input, each way to stop has its reason, the answers of the socket decide pass by pass what is written, and, as long as the socket does not lie, the writer stays intact exactly if no pass tears a frame |
| ActiveDriver.PollEnds | mux/mux/src/connection/active.rs:617-643 | a poll comes to a closed connection if and only if the remote said goodbye in good order or the input ended between two frames, and to a failure only if the writer failed, the socket reported an error, or the input cannot be read on |
| ActiveDriver.PollWaits | mux/mux/src/connection/active.rs:530-556 | a poll that waits has sent all that was staged and the ping that was due, unless the writer had to wait for the socket |
| Endpoint.ObjectsStayReached | mux/mux/src/connection/active.rs:518-647 | states of these objects are reached states of the model, so its theorems hold of them |
| Codec.FlagsRoundTrip | mux/mux/src/frame/header.rs:313-337 | flags survive their byte |
| Codec.FlagByteRoundTrip | mux/mux/src/frame/header.rs:313-337 | every flag byte is the byte of the flags it is read as, unknown bits included |
| Codec.Encode | mux/mux/src/frame/header.rs:343-351 | the buffer filled field by field is the header's 14 bytes |
| Codec.WireLayout | mux/mux/src/frame/header.rs:313-351 | which byte says the type, which the flags, the length with its highest byte first, then the id and the body |
| Codec.KindsOnTheWire | mux/mux/src/frame.rs:78-150 | the type and flag bytes of every frame a peer sends, and the codes of its goodbyes |
| Codec.DecodeAfterEncode | mux/mux/src/frame/header.rs:343-371 | every header comes back from its bytes |
| Codec.EncodeAfterDecode | mux/mux/src/frame/header.rs:353-371 | 14 bytes decode if and only if the type is known, and then they are that header's bytes |
| Codec.ParseWhole | mux/mux/src/frame/io.rs:215-297 | a whole frame with anything behind it is read and used up exactly |
| Codec.ParseCut | mux/mux/src/frame/io.rs:215-297 | no cut of a frame is mistaken for one |
| Codec.StreamRoundTrip | mux/mux/src/frame/io.rs:215-297 | any list of frames, cut anywhere behind it, reads back as that list, ending cleanly if and only if the cut is at a boundary |
| FrameIo.Io.PollReady | mux/mux/src/frame/io.rs:95-169 | the answers of the socket decide what is written, the reply and the state it leaves; it is ready if and only if nothing of the frame is left |
| FrameIo.WriteOutMeans | mux/mux/src/frame/io.rs:95-169 | the reply is done if and only if nothing is left, else it is what the last answer used says, waiting only if that says so or there is none; what is written and what is left make up what was left before, unless the socket claimed too much |
| FrameIo.Io.WriteOnce | mux/mux/src/frame/io.rs:95-169 | one partial write moves its bytes from what is left to what is written, or poisons the sink on a false count |
| FrameIo.Io.IntactMeans | mux/mux/src/frame/io.rs:95-180 | written and left together are the encodings of the frames handed over if and only if the writer is intact |
| FrameIo.Io.StartSend | mux/mux/src/frame/io.rs:171-180 | the next frame is taken in any state; the writer stays intact if and only if nothing of the frame before it was left, that is, unless the socket lied, if it was ready |
| FrameIo.Io.PollNext | mux/mux/src/frame/io.rs:215-297 | the first frame of the input, its clean end, or the reason why there is none, wherever the bytes are split; which answers of the socket it used, and which of them it stopped on |
| FrameIo.Io.HeaderStep | mux/mux/src/frame/io.rs:226-271 | header bytes may come in any pieces |
| FrameIo.Io.BodyStep | mux/mux/src/frame/io.rs:272-297 | and so may body bytes |
| FrameExchange.NoFrameMeans | mux/mux/src/frame/io.rs:215-297 | without a frame: the end if and only if the input is used up and the socket has ended, a failed read if and only if the last answer is an error, waiting only if there is no more for now, any other error only if the input cannot be read on |
| FrameExchange.WriteAll | mux/mux/src/frame/io.rs:95-180 | a list of frames is written as the concatenation of its encodings |
| FrameExchange.ReadAll | mux/mux/src/frame/io.rs:215-297 | the frames read are the first of those the input stands for, all of them at a clean end; every error is the input's |
| FrameExchange.Exchange | mux/mux/src/frame/io.rs:95-297 | over any splits on both sides the frames read are the first of those written, all of them at a clean end |
| FrameExchange.PartOfEncoding | mux/mux/src/frame/io.rs:215-297 | whatever part of an encoding arrives, only sent frames come out, and the end is clean only at a boundary |
| FrameExchange.CleanIsWhole | mux/mux/src/frame/io.rs:215-297 | a stream that is read to a clean end is the encoding of the frames read |
| FrameExchange.TearFrame | mux/mux/src/frame/io.rs:95-180 | a run of the writer: one byte of a frame, an error, the next frame started; the bytes written decode to neither |
| ClosingFuture.DrainKeepsLines | mux/mux/src/connection/closing.rs:75-84 | taking a command from any channel keeps every stream's frames in their order |
| ClosingFuture.Closing.DrainOne | mux/mux/src/connection/closing.rs:75-97 | channels are drained one command at a time, then the goodbye goes behind them |
| ClosingFuture.Closing.FlushOne | mux/mux/src/connection/closing.rs:98-114 | the backlog goes out frame by frame, none lost |
| ClosingFuture.Closing.AwaitReply | mux/mux/src/connection/closing.rs:115-136 | reads frames until a goodbye comes, and no further; it ends well if and only if one came or the input ended cleanly without one, is unfinished only while the socket has no more, and an error only if the socket reports one or the input cannot be read on |
| ClosingFuture.Closing.Poll | mux/mux/src/connection/closing.rs:62-155 | every stream's line of frames is kept whatever the socket does; what is written is a flush of the backlog, of the commands drained and of the goodbye, as far as the socket's answers go, and the poll is done once all of it is out and, if it waits for one, the reply has come |
| ClosingFuture.Closing.DoneMeansSent | mux/mux/src/connection/closing.rs:62-155 | a finished future has handed to the writer each stream's backlog, then its channel, then a goodbye; they are what is written if and only if the writer is intact |
| ClosingFuture.CloseAll | mux/mux/src/connection/closing.rs:62-155 | what the remote decodes after a finished close is exactly that |
| ConnectionStates.HandoverOwes | mux/mux/src/connection/active.rs:421-496 | what was sent, staged and queued at the close accounts for every byte accepted, stream by stream |
| ConnectionStates.Connection.StartClosing | mux/mux/src/connection.rs:117-126 | the closing future gets all of it |
| ConnectionStates.Connection.Close | mux/mux/src/connection.rs:117-126 | close acts in the active state only |
| ConnectionStates.Connection.PollClosing | mux/mux/src/connection.rs:161-174 | the socket is kept if and only if the future finished well |
| ConnectionStates.Connection.NewStream | mux/mux/src/connection.rs:106-111 | opening works in the active state only and keeps the connection valid |
| ConnectionStates.Connection.Write | mux/mux/src/connection/stream.rs:291-347 | so does a write at any time, its bytes being on the account; in the active state it answers as `PeerAnswers.WriteMeans` says, later it fails |
| ConnectionStates.Connection.Read | mux/mux/src/connection/stream.rs:237-287 | a read at any time answers as `PeerAnswers.ReadMeans` says, and parks in the active state only |
| ConnectionStates.Connection.CloseStream | mux/mux/src/connection/stream.rs:355-391 | closing a stream at any time answers as `PeerAnswers.ShutMeans` says, and parks in the active state only |
| ConnectionStates.Connection.PollWhileActive | mux/mux/src/connection.rs:140-160 | one poll of the active state over the socket: it stays active, or leaves for the closing future or the clean-up, or panics |
| ConnectionStates.Connection.Poll | mux/mux/src/connection.rs:137-196 | the driver runs over the socket until it waits or fails; a failure adds nothing to the wire and leaves nobody waiting, an orderly end is answered with all that was staged and queued and a goodbye, without waiting for a reply, a closed connection stays closed, only a panic poisons the state, and, as long as the socket does not lie, the writer stays intact exactly if no pass tears a frame |
| ConnectionStates.Connection.SocketBackMeansDelivered | mux/mux/src/connection.rs:198-208 | from a socket that is given back the remote decodes exactly the frames sent, to a clean end, if and only if the writer stayed intact; then a goodbye is last, and they hold every accepted byte of every stream in order |
| ConnectionStates.ReachedIsAccountable | mux/mux/src/connection.rs:117-126 | a peer that has neither closed nor panicked, reached against any remote, can be closed with nothing lost |
| TornWriter.AllPasses | mux/mux/src/connection/active.rs:518-647 | with one error behind the first byte of a ping, every trace of the driver's passes tears the ping and then waits |
| TornWriter.RemoteIsLost | mux/mux/src/frame/io.rs:215-297 | from the bytes then written the remote reads a ping that nobody sent and an unknown frame type, and no byte of the stream |
| TornWriter.LoseByte | mux/mux/src/connection.rs:137-208 | a run of a connection, for any configuration that does not wait for a reply: it accepts a byte, is closed, and gives the socket back as after a good end, and the remote never gets the byte |
| Ranges.CanonicalIsUnique | rangeset/src/set.rs:83-87 | a set of values has one canonical list of ranges |
| Ranges.LengthsCountValues | rangeset/src/set.rs:387-389 | the lengths add up to the number of values |
| RangeSources.PartitionPoint | rangeset/src/set.rs:592-600 | bisection finds how many ranges end before `n` |
| RangeIterators.Source.Next | rangeset/src/set.rs:583-585 | yields the first remaining range, whether the source is a list or an iterator nested to any depth |
| RangeIterators.Source.SeekEndGe | rangeset/src/set.rs:592-600 | yields the first range that ends at `n` or later, its start perhaps cut; no value from `n - 1` on is lost |
| RangeIterators.Source.SeekByNext | rangeset/src/iter.rs:48-58 | so does the trait's default |
| RangeIterators.UnionIter.Next | rangeset/src/iter.rs:242-306 | yields the first block of the union with a gap behind it, leaving the rest of the union |
| RangeIterators.UnionIter.Merge | rangeset/src/iter.rs:266-304 | overlapping or adjacent ranges of both sides are absorbed until there is a gap |
| RangeIterators.UnionIter.SeekEndGe | rangeset/src/iter.rs:315-336 | the seek contract holds for the union of any two sources, nested iterators included |
| RangeIterators.DifferenceIter.Next | rangeset/src/iter.rs:382-429 | yields the first block of the difference, leaving the rest |
| RangeIterators.DifferenceIter.Pass | rangeset/src/iter.rs:385-427 | a pass yields or uses something up, and changes nothing that is left to yield |
| RangeIterators.DifferenceIter.SeekEndGe | rangeset/src/iter.rs:439-458 | the seek contract holds for the difference of any two sources |
| RangeIterators.IntersectionIter.Next | rangeset/src/iter.rs:504-534 | yields the first block of the intersection, leaving the rest |
| RangeIterators.IntersectionIter.SeekEndGe | rangeset/src/iter.rs:544-565 | the seek contract holds for the intersection of any two sources |
| RangeSymmetricDifference.Coalesced | rangeset/src/iter.rs:612-626 | a chunk that touches the block under way changes nothing that is left to yield; one that does not sets the block free as the first of what is left |
| RangeIterators.SymmetricDifferenceIter.NextChunks | rangeset/src/iter.rs:628-645 | takes the next range of each side, seeking without loss |
| RangeIterators.SymmetricDifferenceIter.Next | rangeset/src/iter.rs:655-701 | yields the first block of the symmetric difference, coalesced, leaving the rest |
| RangeIterators.SymmetricDifferenceIter.Pass | rangeset/src/iter.rs:656-701 | a pass yields or uses something up, and changes nothing that is left to yield |
| RangeRelations.Collect | rangeset/src/iter.rs:187-200 | draining any source terminates with the canonical list of its values |
| RangeRelations.Build | rangeset/src/iter.rs:61-95 | iterators nested as an expression says are a source of that expression's values |
| RangeRelations.Evaluate | rangeset/src/iter.rs:61-95 | draining any nested expression of unions, differences, intersections and symmetric differences gives the canonical list of its values |
| RangeRelations.SeekIn | rangeset/src/iter.rs:48-58 | a seek in any nested expression, then draining it, gives every value from `n - 1` on and no other value than its own |
| RangeRelations.Union | rangeset/src/iter.rs:242-306 | draining terminates with the canonical list of the union |
| RangeRelations.Difference | rangeset/src/iter.rs:382-429 | draining terminates with the canonical list of the difference |
| RangeRelations.Intersection | rangeset/src/iter.rs:504-534 | draining terminates with the canonical list of the intersection |
| RangeRelations.SymmetricDifference | rangeset/src/iter.rs:655-701 | draining terminates with the canonical list of the symmetric difference |
| RangeRelations.IsSubset | rangeset/src/iter.rs:100-121 | decides the subset relation |
| RangeRelations.IsSuperset | rangeset/src/iter.rs:126-147 | decides the superset relation |
| RangeRelations.IsDisjoint | rangeset/src/iter.rs:152-180 | decides disjointness |
| RangeSets.RangeSet.FromRanges | rangeset/src/set.rs:186-211 | any ranges, empty, unsorted or overlapping, give the canonical list of their union |
| RangeSets.RangeSet.SortMerge | rangeset/src/set.rs:91-126 | sorting and merging in place keeps the values and ends canonical |
| RangeSets.RangeSet.PushRange | rangeset/src/set.rs:247-260 | appends or joins, and reports a range out of order if and only if the list is no longer canonical |
| RangeSets.RangeSet.UnionMut | rangeset/src/set.rs:234-243 | in place, the canonical list of the union |
| RangeSets.RangeSet.RemoveRange | rangeset/src/set.rs:275-293 | splices out exactly the values of the range |
| RangeSets.RangeSet.DifferenceMut | rangeset/src/set.rs:263-271 | in place, the canonical list of the difference |
| RangeSets.RangeSet.SplitOff | rangeset/src/set.rs:322-350 | two canonical halves, below the point and from it on |
| RangeSets.RangeSet.IntersectionMut | rangeset/src/set.rs:296-299 | in place, the canonical list of the intersection |
| RangeSets.RangeSet.SymmetricDifferenceMut | rangeset/src/set.rs:302-305 | in place, the canonical list of the symmetric difference |
| RangeSets.UnionBothWays | rangeset/src/set.rs:234-243 | the in-place union leaves the very list that collecting the lazy one gives |
| RangeSets.DifferenceBothWays | rangeset/src/set.rs:263-271 | and so does the in-place difference |
| RangeSets.SplitAndRejoin | rangeset/src/set.rs:322-350 | the union of the two halves is the list before the split |
| RangeSets.IsSubset | rangeset/src/set.rs:766-783 | the short cut on outer bounds decides the same relation |
| RangeCover.MostCoverage | rangeset/src/ops/cover.rs:159-172 | picks a candidate with the most uncovered values, none if no candidate has any |
| RangeCover.OnlySubsets | rangeset/src/ops/cover.rs:135-146 | the candidates are exactly the sets within the query |
| RangeCover.BestPick | rangeset/src/ops/cover.rs:155-194 | one more greedy pick keeps the bound against every family that covers the query |
| RangeCover.NothingMoreToCover | rangeset/src/ops/cover.rs:155-194 | when no candidate helps, what is uncovered is in no subset of the query |
| RangeCover.Cover | rangeset/src/ops/cover.rs:123-194 | terminates with distinct subsets, the query minus all its subsets uncovered, and after t picks at most the ((k-1)/k)^t-th part left if some k sets cover the query |
| PlexRing.AdvanceDropsFront | futures-plex/src/lib.rs:480-492 | moving the read position drops the front of the queue, across the wrap too |
| PlexRing.WriteAddsAtEnd | futures-plex/src/lib.rs:424-438 | what is written into the free piece stands at the end of the queue |
| PlexRing.FrontIsContiguous | futures-plex/src/lib.rs:384-396 | the readable piece is the front of the queue |
| PlexRing.SimplexStream.Get | futures-plex/src/lib.rs:384-396 | the front of the queue, empty only if the queue is |
| PlexRing.SimplexStream.PollGet | futures-plex/src/lib.rs:399-416 | data first, the end only if closed and all read, else parked |
| PlexRing.SimplexStream.GetMut | futures-plex/src/lib.rs:424-438 | a free piece, empty only if the ring is full |
| PlexRing.SimplexStream.PollMut | futures-plex/src/lib.rs:442-459 | an error once closed, else room, else parked with the ring full |
| PlexRing.SimplexStream.Advance | futures-plex/src/lib.rs:480-492 | read bytes leave the queue and a waiting writer is woken |
| PlexRing.SimplexStream.AdvanceMut | futures-plex/src/lib.rs:508-520 | written bytes join the queue and a waiting reader is woken |
| PlexRing.SimplexStream.PollRead | futures-plex/src/lib.rs:551-567 | a read takes the front of the queue, no more than it asks for, and less only if that is all or the rest begins at the start of the ring; it returns nothing only if asked for nothing, or closed and everything read |
| PlexRing.SimplexStream.PollWrite | futures-plex/src/lib.rs:569-585 | a write takes a non-empty prefix of its bytes, less than all only if the ring is full or its end is reached; it fails once closed, or parks when full |
| PlexRing.SimplexStream.CopyAll | futures-plex/src/lib.rs:598-610 | buffers are copied one behind the other into one free piece |
| PlexRing.SimplexStream.PollWriteVectored | futures-plex/src/lib.rs:587-615 | a vectored write is a plain write of the buffers put together |
| PlexRing.Session | futures-plex/src/lib.rs:551-616 | over any calls, bytes read are a prefix of bytes accepted, at most the capacity behind, and no read gives more than it asked for; once the end is seen they are all of them |
| PlexClose.RunKeeps | futures-plex/src/lib.rs:399-459 | the close invariant holds in every interleaving |
| PlexClose.PendingIsWoken | futures-plex/src/lib.rs:58-72 | once the close is done, a task left `Pending` has been woken since |
| PlexClose.StoredMeansStuck | futures-plex/src/lib.rs:399-459 | a stored waker means an empty ring for a reader, a full one for a writer |
| PlexClose.NoParkingAfterClose | futures-plex/src/lib.rs:399-459 | a poll that begins after the flag is up never parks |
| PlexClose.TakingFirstLosesAWakeup | futures-plex/src/lib.rs:58-72 | with the waker taken before the flag is up a task can be left waiting for good |
| PlexClose.DropWakesEveryone | futures-plex/src/lib.rs:195-211 | once an end is dropped, every waiting reader and writer of the other end has been woken |
| SpanView.Overlapping | spansy/src/lib.rs:380-405 | the loop finds exactly the selected positions, in reading order |
| SpanView.SelectIndices | spansy/src/lib.rs:375-408 | a selection exists if and only if it ends within the view, and reads that slice of the positions |
| SpanView.SameReading | spansy/src/lib.rs:375-408 | a canonical list is determined by the positions it reads |
| SpanView.SelectWhole | spansy/src/lib.rs:375-408 | selecting everything gives the view's own positions |
| SpanView.SelectOfSelect | spansy/src/lib.rs:375-408 | selecting c..d of a selection from a is selecting a+c..a+d |
| SpanView.SelectionIsValid | spansy/src/lib.rs:155-171 | a selection is a valid view that shows that slice of the bytes |
| SpanView.AsBytes | spansy/src/lib.rs:140-153 | one slice or the slices put together: the bytes at the view's positions |
| SpanView.Select | spansy/src/lib.rs:160-182 | selecting never panics and shows exactly the asked slice, or nothing if it ends outside |
| ChunkSize.AsciiIsUtf8 | spansy/src/http/span.rs:438-443 | ASCII in front of a text does not change whether it is valid UTF-8 |
| ChunkSize.HexMeans | spansy/src/http/span.rs:443-445 | hexadecimal digits of either case read back as their number |
| ChunkSize.SizeRoundTrip | spansy/src/http/span.rs:438-445 | every size, with any extension behind a semicolon, is read back |
| ChunkedBody.ChunksRoundTrip | spansy/src/http/span.rs:431-472 | encoded chunks are found where they stand, up to the last-chunk line |
| ChunkedBody.DataIsThere | spansy/src/http/span.rs:454-463 | each range found holds its chunk's bytes |
| ChunkedBody.ChunksFailAt | spansy/src/http/span.rs:431-472 | a parse of chunks that fails has read some chunks and then met a size line without an end, or without a size, or data without a line end behind it, as its error says; it panics exactly where the data would end beyond the input |
| ChunkedBody.TrailersRoundTrip | spansy/src/http/span.rs:511-579 | encoded trailers give back the spans of names, values and lines |
| ChunkedBody.TrailersFailAt | spansy/src/http/span.rs:511-579 | and a parse of trailers a line without an end or without a colon; it panics on a name that is not UTF-8 |
| ChunkedParser.ParseChunks | spansy/src/http/span.rs:431-472 | the loop over chunks gives the ranges and views, or the error, of the chunk grammar |
| ChunkedParser.ReadTrailer | spansy/src/http/span.rs:533-570 | name, value and line spans of one trailer, white space after the colon skipped |
| ChunkedParser.ParseTrailers | spansy/src/http/span.rs:511-579 | the loop over trailers gives their spans and views, or the error |
| ChunkedParser.ParseChunkedBody | spansy/src/http/span.rs:420-506 | the whole body parser: views of body, chunks and trailers and the bytes used, or the error |
| ChunkedParser.SizeLineOk | spansy/src/http/span.rs:438-445 | the size in hexadecimal of either case with extensions behind it is a line that reads back as the size |
| ChunkedParser.BodyParses | spansy/src/http/span.rs:420-506 | every body whose size lines read as the lengths parses back to its chunks and trailers and is used up exactly |
| ChunkedParser.AcceptedIsEncoded | spansy/src/http/span.rs:420-506 | and nothing else is accepted: what is used up of any input that is parsed is the encoding of chunks and trailers, with the ranges and spans that were found |
| ChunkedParser.BodyRoundTrip | spansy/src/http/span.rs:420-506 | a body sent from pieces of data, with hexadecimal sizes of either case, extensions and trailers, parses back to its data and trailers, whatever follows it |
| ChunkedContent.ChunksAreSpaced | spansy/src/http/span.rs:431-472 | in every parsed input, well encoded or not, the data of two chunks is at least a line end apart |
| ChunkedContent.SelectionsApart | spansy/src/http/span.rs:481-487 | so their positions in the view never touch |
| ChunkedContent.ChunksMerge | spansy/src/http/span.rs:481-487 | the collected positions are canonical, within the view, and read the chunks one after the other |
| ChunkedContent.ContentView | spansy/src/http/span.rs:481-487 | the content view never panics and shows the chunks' bytes put together |
| ChunkedContent.ChunkedData | spansy/src/http/span.rs:420-506 | parsing a body sent from pieces of data gives back the data put together and the length of the encoding |

## Left out

mux:

- Two-peer results are stated for runs in which each id is opened once by one handle on each side, `split_send_size` is at most 1 MiB and no side has decided to terminate. Handles merged onto one id, id reuse after reaping and handles opened while closing are covered by the one-peer results only.
- TwoPeersTheorems.CreditConserved: says nothing about an id that either side has reaped, where the two windows no longer belong together.
- A sender caught in the middle of a send when the channels are shut: a receiver that is `Pending` at that moment counts as drained, as the code counts it.
- ClosingFuture.Closing: one channel per stream id; closing the socket itself and `keep_alive` are not modelled.
- ConnectionStates.Connection.NewStream: one handle per stream id, because with several the order of their bytes is not determined. What a failed connection's streams hold of the window budget until their handles are dropped is not followed.
- ActiveDriver.PollActive: the flush of the socket underneath the writer is not modelled, and a poll that waits is not shown to be woken again.
- The shared record of a stream is a map entry that handles refer to by number, not a heap object of its own, so aliasing is by number.
- Clocks, round-trip measurement, keep-alive, traffic counters, stream ids from BLAKE3 (distinct user ids are taken to give distinct ids) and builder setters.
- Memory, executors and the internals of channels and wakers. A channel takes commands until it holds more than ten, the sender's own slot included.

rangeset:

- `IntoRangeIter` as a source: its seek can step back, so neither termination nor the set laws follow.
- Element types other than integers; the standard library's sort, for which an insertion sort stands in; `RangeSet::is_subset(&Range)` and range-with-range iterators.
- RangeCover.Cover: the fewest sets are not claimed, because the algorithm is greedy; the bound against every covering family is proved instead.

futures-plex:

- `BiLock`, the memory orderings of `AtomicWaker` and the forwarding calls `poll_read_to` and `poll_write_from`. Registering, taking and waking are atomic events.

spansy:

- White space around a chunk size is trimmed for ASCII only, and the trailer name's UTF-8 check is made on the whole name at once.
- Selecting with a start beyond the end, on which the code panics, and wrap-around of positions near the largest `usize`: termination and panics of the chunk loop are claimed for checked arithmetic. Without overflow checks the end of an oversized chunk wraps, which can set the position back to an earlier line, so that the loop repeats.
- JSON content and HTTP heads, which are parsed by other libraries.

The remaining crates of the repository are wrappers and network plumbing.
