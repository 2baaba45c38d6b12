# Sharing: verified models

Dafny models of the stateful cores of Sharing, the LAN sharing daemon and its browser extension, with proofs of what
they promise over every run. `dafny verify dfyconfig.toml` checks all of it.

| files | what they model |
|---|---|
| `TransferSpec` | the transfer engine as a step machine on values: one step is the code between two awaits |
| `SendCalls`, `CallRefinement`, `CallRuns` | the calls of `sendFile`, each with its `aborted` flag and what it waits for, running on after their transfer is settled; that settling wakes and stops them; and that with it every run is a run of the engine above, without them |
| `TransferObjects`, `TransferEngine` | the engine as the objects it is made of, updated in place: records shared between state objects and history, states held by calls and prompts after they have left the maps, `settleAccept`, the waiters of `awaitDrain` among the channel's listeners; every method is proved against the machine of calls, and `Happen` and `GoOn` are all of its steps |
| `ReceiverInvariant`, `Settlement`, `FrameStream`, `Outcomes` | one engine: what a receiver holds, when a transfer is over and with which outcome, what is sent of a file |
| `Backpressure`, `LateDrain`, `CallPipe` | one engine over a channel buffer: what waits and what is queued, for transfers and for calls |
| `TransferViews`, `TransferNet`, `TransferTalk`, `TransferLive`, `TransferRest` | two engines over one ordered channel: that what is delivered is what was sent, what each of them says, and that what was accepted is delivered |
| `ChunkCodec`, `Rechunk` | the binary frame and the read loop that cuts a file into chunks |
| `PairingCode`, `PairingSpec`, `PairingInvariant`, `PairingWorld`, `PairingTheorems` | pairing between any number of daemons: one end of an attempt, both ends and the frames between them, all daemons with their pending sets and trust stores, and what follows |
| `PairingPost`, `PairingDelivery` | the mail of an attempt: what each step sends and takes, and that no accept and no token is lost |
| `PairingSuccess`, `PairingTogether` | two humans who both accept: one attempt, and any world around it |
| `PairingReasons`, `PairingRefusals` | why a pairing failed, and that the other side gets to know |
| `PairingScreens` | whose digits a dialer shows when another daemon answered on the address it dialled |
| `PairingAnswers`, `PairingForget`, `PairingRuns` | answers and orders to stop that come late: exactly when they still matter, and runs in which they do |
| `PairingDriver`, `PairingManager` | the driver goroutine on its own, against any peer, and the objects it runs in |
| `Registry`, `ConnLife`, `ConnAdmit`, `ConnForget` | the peer manager's live sockets, handshake slots and dials: the object, the life of every socket from its slot to its teardown, with what it has shown for its place, who gets in, and what forgetting a device leaves of it |
| `PeerLink`, `Glare`, `IceParking` | WebRTC negotiation: one link, two links, candidates |
| `Discovery`, `Roster`, `Freshness`, `Debounce` | from mDNS answers to the device list and its pushes |
| `RateLimiter`, `TrustStore`, `TrustDurability`, `SortedIds` | the pairing limiter; the trust store in memory, on disk, under concurrent writers and crashes |
| `Common` | shared vocabulary |

How the machines are read:

- Code between two awaits, or under one lock, is one step. What the world decides during a step (is the channel open,
  does a write succeed, which arm of a `select` fires, how a stream splits into reads, when a timer fires) is an
  argument of the step, and every theorem holds for all of them.
- A channel or socket is a queue whose undelivered tail may be cut at any moment.
- Device ids, tokens, nonces and reasons are strings; the digest behind the code is an arbitrary function; minted tokens
  and nonces are arguments. Time is a number of nanoseconds on one clock that never runs backwards.
- Modules with a class hold the imperative code; its methods state the whole new state, through a specification
  function where the transition is also a step of a machine.

Where the code and its comments or documentation differ, the code is followed:

- The pairing code does travel in `peer:pair:required` (`daemon/peer/listener.go:214`), although comments call it never
  transmitted; the dialer compares it with the derived one and aborts on a mismatch, and only the derived one is shown.
- `Confirm` says a second answer is refused as already answered (`daemon/peer/pairing.go:137-139`). Once the driver has
  taken the first one out of its one-place buffer, a second one is accepted into it
  (`PairingRuns.SecondAnswerIsTaken`). It changes what becomes of a pairing this side has accepted if and only if it is
  a reject, the driver is still in its select and the buffer is empty (`PairingAnswers.SecondAnswerMatters`).
- `Forget` cancels a pairing in flight so that it cannot land behind the human's back (`daemon/peer/peer.go:615-619`),
  by an event that queues behind the others, is dropped when the buffer is full, and is read by nobody once the driver
  has left its select. A token can still be stored afterwards (`PairingRuns.ForgottenIsStored`,
  `PairingRuns.ForgottenBeforeTheStore`), if and only if the driver had agreed on a usable one and not yet stored it, or
  was in its select with the right things in hand (`PairingForget.StillStores`); before the select the order to stop
  always wins (`PairingForget.ForgetMayComeTooLate`).
- `Forget` closes the live socket so that a forgotten peer cannot keep a connection (`daemon/peer/peer.go:608-609`). A
  socket that was verified before and is registered after it is live all the same (`ConnForget.ForgottenStaysLive`);
  that can happen if and only if there is such a socket, or one that has just been answered or has just stored its
  token (`ConnForget.ForgetLeavesSockets`).
- `sendChunk` waits once: whoever is woken by a drain event does not look at the buffer again. One frame per send above
  the high-water mark is therefore enough if every drain event is handled in the event-loop turn that crosses the
  threshold (`Backpressure.QueueIsTight`). If events may come later, a single send already goes over that bound, and n
  sends go over it for every n >= 1 (`LateDrain.LateEventOverflows`): with at most `late` events raised and not yet
  dispatched, exactly 1 + late frames per send are enough (`LateDrain.LateBoundIsExact`), so with no limit on them
  nothing is (`LateDrain.LateEventsHaveNoBound`).
- Settlement tests membership by id. An announcement that reuses the id of a finished transfer breaks it at once, every
  time, and nothing else a peer can send does (`Settlement.FreshIdsExactly`).
- A zero-byte offer can be completed by a peer that never waited for the accept; consent holds for exactly the other
  sizes (`ReceiverInvariant.UnconsentedExactlyEmpty`).

## Model

| member | source | states |
|---|---|---|
| `TransferNet.EmittedFilesAreTheSentFiles` | extension/lib/transfer.ts:559-900 | In every run of two engines over one ordered channel that may lose its undelivered tail, with any number of transfers both ways, refusals, cancels, closes and failed writes: each file emitted for an id equals, in name, type, size and every byte, the file the other side passed to sendFile for that id, and no id is emitted twice |
| `TransferNet.ArrivalsAreTaken` | extension/lib/transfer.ts:785-863 | In every reachable state of such a run, a chunk that arrives for an open accepted transfer is appended and not dropped unless the stream has yielded more than the declared size, and a completion finds every byte of the stream there, so it is failed exactly when the stream's length is not the declared size |
| `TransferNet.ArrivalFacts` | extension/lib/transfer.ts:796-863 | What the queue and the receiver agree on when a chunk or a completion is about to arrive: received bytes plus the bytes under way are a prefix of the sent file |
| `TransferNet.RunKeeps` | extension/lib/transfer.ts:424-924 | The relation between a transfer's sender, the frames under way in both directions and its receiver is kept by every step of every run |
| `TransferNet.SendKeeps` | extension/lib/transfer.ts:469-627 | Every move of the sending half keeps that relation: nothing is streamed before the accept, chunks continue the prefix, completion comes last |
| `TransferNet.RecvKeeps` | extension/lib/transfer.ts:703-914 | Every move of the receiving half keeps it: no bytes before consent, chunks appended in order, a file emitted only when all of it is there |
| `TransferViews.StepMoves` | extension/lib/transfer.ts:424-1017 | Every step of an engine, seen through any one transfer id, is a move of that transfer's sender and receiver automata and touches no other transfer |
| `TransferTalk.EveryWordIsSent` | extension/lib/transfer.ts:424-1021 | With the channel open and the write taken, what every step of an engine says, in the peer's own words: the announcement, each chunk, the completion, the cancel, the yes or no to a prompt, the acks, and nothing else |
| `TransferTalk.AnswersAreSent` | extension/lib/transfer.ts:782-794 | So answering the prompt of the transfer that is held sends exactly that answer, and a yes makes the transfer accepted, a no lets it go |
| `TransferTalk.DropsAreCounted` | extension/lib/transfer.ts:796-815 | Every binary frame that comes for no transfer this side has accepted is counted as dropped, and nothing else is |
| `TransferLive.YesIsUnderWay` | extension/lib/transfer.ts:782-794 | A yes is never lost: in every run of two engines, whatever is cancelled, closed, timed out or cut off on the way out, while the link back is alive and has refused the receiver no write, a transfer it has accepted is one whose yes is under way, or whose sender has started, was turned down by its own timer, is gone, or has had its engine disposed |
| `TransferLive.SmoothKeeps` | extension/lib/transfer.ts:469-900 | In a run without cancel, close, dispose, timeout, refused write or lost tail, each act keeps every transfer on its way: whoever has not answered is waited for, and whoever has accepted is sent the rest of the file |
| `TransferLive.AcceptedIsDelivered` | extension/lib/transfer.ts:424-900 | Accepted means delivered: in every such run, with any number of transfers both ways, some declined, once both queues are empty and no sender can go on, every transfer that was ever accepted and whose stream is as long as declared has been emitted at the far end, exactly as it was sent |
| `TransferRest.DeliveryIsInReach` | extension/lib/transfer.ts:424-900 | And that end is always in reach: wherever such a run stands, a transfer that has been accepted and whose stream is as long as declared can be brought home, exactly as it was sent, by steps in which nothing goes wrong either |
| `TransferRest.SenderGoesOn` | extension/lib/transfer.ts:469-627 | Once answered, a send always has a next step of its own, and each uses up part of what is left of it |
| `ReceiverInvariant.StepKeepsReceiver` | extension/lib/transfer.ts:703-900 | Under an arbitrary stream of frames, well formed or not: an unaccepted transfer holds no bytes; an accepted one keeps received = the sum of its chunks = record.bytes <= size <= maxInMemoryBytes, and less than 1 MiB unacknowledged |
| `ReceiverInvariant.AcksAreTrue` | extension/lib/transfer.ts:825-836 | An ack names a transfer that is held, reports exactly what has arrived, never exceeds the size and never goes back |
| `ReceiverInvariant.ExecKeeps` | extension/lib/transfer.ts:766-794 | Over whole runs against any peer, every emitted file of non-zero size belongs to a record whose own prompt was answered yes |
| `ReceiverInvariant.UnconsentedExactlyEmpty` | extension/lib/transfer.ts:848-851 | The exact limit of that promise: a run that emits a file of size n without a yes to its own prompt exists if and only if n is zero |
| `Settlement.TransfersSettleOnce` | extension/lib/transfer.ts:974-1017 | With fresh ids, in every run and in any order of accept, decline, timeout, cancel, remote cancel, close and dispose: a transfer is in exactly one of outgoing, incoming and finished, its status only moves pending, active, terminal, it has one record, and a finished record never changes |
| `Settlement.StepSettles` | extension/lib/transfer.ts:515-548 | One step keeps that for every id |
| `Settlement.FinishedIsFinal` | extension/lib/transfer.ts:1004-1017 | From any reachable state on, what is finished stays and what is live only moves forward |
| `Settlement.FreshIdsExactly` | extension/lib/transfer.ts:782-788 | Exactly which steps keep all that, in every state in order: those that announce no id in use, and, while the engine is not disposed, take no announcement of a finished id; each single one of the others breaks it there and then |
| `Settlement.ReusedIdFinalisesTwice` | extension/lib/transfer.ts:782-788 | What such a reuse leads to, on the shortest run: a peer cancels an offer and announces the same id again while the first prompt is open; the prompt's no then finalises the first record a second time and drops the new transfer |
| `Outcomes.SendEnds` | extension/lib/transfer.ts:469-627 | What ends a transfer this side sends, and with which status and reason: the end of its stream completes it; a no or a timeout, a failed read, a chunk that cannot be sent, a cancel from either side, a close or dispose ends it otherwise; every other step leaves it where it is |
| `Outcomes.RecvEnds` | extension/lib/transfer.ts:782-914 | The same for a transfer this side receives, the short completion, the chunk over the declared size and the URL that cannot be made included |
| `Outcomes.EmitsWhenComplete` | extension/lib/transfer.ts:841-900 | A step emits at most one file, and exactly when that verdict is that the transfer is complete |
| `Outcomes.EveryRecordHasAnOrigin` | extension/lib/transfer.ts:974-1017 | Every record in the history of a run with fresh ids was written by one step, with the verdict of that step, and stays as it was written; announcements that were turned down included |
| `Outcomes.ReceivedIsComplete` | extension/lib/transfer.ts:841-900 | Over every run with fresh ids: the record of a transfer received is complete if and only if a file was emitted for it |
| `Outcomes.SentIsComplete` | extension/lib/transfer.ts:559-600 | And the record of a transfer sent is complete if and only if its stream reached its end with nothing left to send |
| `Outcomes.EndedHasSentAll` | extension/lib/transfer.ts:559-600 | Which it does only when every chunk of the canonical split has gone out and every byte of the stream is counted |
| `Outcomes.TeardownOutcomes` | extension/lib/transfer.ts:515-548 | From every state such a run reaches, on a live engine: a close files every live transfer as failed for an error, dispose files it as cancelled by the user, a local cancel files the one it names as cancelled for its reason; each for good, and with nothing else of the record changed |
| `Backpressure.QueueIsBounded` | extension/lib/transfer.ts:602-651 | With at most n concurrent sends and drain events dispatched at any later time, at most `late` of them under way at once: queued chunk bytes never exceed HIGH_WATER + (1 + late) n (CHUNK_SIZE + 40); a transfer is parked only while the buffer is above BUFFERED_LOW or an event is on its way; the event wakes all of them |
| `Backpressure.QueueIsTight` | extension/lib/transfer.ts:602-632 | When the drain event is handled in the event-loop turn that crosses the threshold, the bound is HIGH_WATER + n(CHUNK_SIZE + 40) |
| `LateDrain.LateBoundIsExact` | extension/lib/transfer.ts:630-651 | With at most `late` drain events under way at once, k frames above the mark are enough for every run of at most n sends if and only if k >= (1 + late) n: for every set of n ids there is a run of sends under those ids that goes over any smaller bound |
| `LateDrain.LateEventOverflows` | extension/lib/transfer.ts:630-651 | In particular one frame per send is enough if and only if nothing is sent or `late` is zero, which here means that no drain event is raised at all; that it is also enough when each is dispatched in the turn that raises it is `Backpressure.QueueIsTight` |
| `LateDrain.LateEventsHaveNoBound` | extension/lib/transfer.ts:630-651 | And if any number of events may be under way, no bound holds for every run unless nothing is sent, because whoever is woken does not look at the buffer again |
| `CallPipe.NoCallWaitsInVain` | extension/lib/transfer.ts:630-651 | No lost wake-up, call by call and in every run: a call is parked only while its transfer is live, the channel open, and the buffer above BUFFERED_LOW or an event under way; the event leaves none parked; the bound on the queue holds whatever settled calls still run |
| `CallRuns.CallsAreTheEngine` | extension/lib/transfer.ts:974-990 | Every run of the calls, those of settled transfers running on included, is a run of the engine without them: same transfers, same history, same frames, so all that is proved of it is true of them |
| `CallRuns.WaitingCallsAreLive` | extension/lib/transfer.ts:981-987 | In every run, a call that waits for the buffer or for the answer is the call of a transfer still in the map: cancel, decline, close, failure and dispose wake it |
| `CallRuns.CloseWakesEveryCall` | extension/lib/transfer.ts:645-649 | A close, and a drain event, leave no call of any transfer parked |
| `CallRuns.SettledCallsEnd` | extension/lib/transfer.ts:611-627 | From the moment its transfer is settled, wherever it stood, a call takes at most three more steps, sends nothing, and until it has returned there is one it can take |
| `Backpressure.StepEffect` | extension/lib/transfer.ts:559-627 | A step of the engine queues at most one frame, and only for a sender that has just found the buffer at or below the mark or has been woken |
| `Rechunk.StreamPayloads` | extension/lib/transfer.ts:559-588 | The read loop with its carry, for every way a stream splits into reads, empty ones included, hands over exactly the canonical split of the whole file |
| `Rechunk.StreamFrames` | extension/lib/transfer.ts:559-600 | The frames it sends decode, one by one, to that split under the transfer's id |
| `FrameStream.FramesAreTheSplit` | extension/lib/transfer.ts:559-627 | The binary frames an engine sends of a file in any run, whatever else goes on in it, decode to the first payloads of that split, in order, and to all of them once completion has been announced |
| `Rechunk.SplitIsCanonical` | extension/lib/transfer.ts:576-588 | The split has chunkCount(size) payloads, all but the last exactly CHUNK_SIZE and the last non-empty, and they concatenate to the file |
| `Rechunk.CanonicalIsSplit` | extension/lib/transfer.ts:225-229 | It is the only list of payloads with that property |
| `Rechunk.SplitPrepend` | extension/lib/transfer.ts:576-583 | Cutting a full chunk off the front of the view leaves the split of the rest |
| `ChunkCodec.EncodeChunk` | extension/lib/transfer.ts:180-200 | The byte loops of encodeChunk build the frame of the specification, or fail exactly for ids that are not 36 ASCII characters |
| `ChunkCodec.DecodeChunk` | extension/lib/transfer.ts:203-219 | The byte loops of decodeChunk return what the frame means, or nothing when it is too short or lacks the magic |
| `ChunkCodec.DecodeEncode` | extension/lib/transfer.ts:180-219 | Decoding an encoded chunk gives back its id and payload; the header is 40 bytes |
| `ChunkCodec.EncodeDecode` | extension/lib/transfer.ts:203-219 | Re-encoding any decodable frame whose id is ASCII gives the same bytes |
| `TransferEngineModule.TransferEngine.Happen` | extension/lib/transfer.ts:424-548 | Whatever happens to the engine that is not one call going on by itself, done to the objects in place: they then stand for the machine after that step, with its frames and files, sharing and membership in order |
| `TransferEngineModule.TransferEngine.GoOn` | extension/lib/transfer.ts:469-627 | A call going on from whatever it awaits, on objects the maps may have let go of: the same for every step of a call |
| `TransferEngineModule.TransferEngine.SendFile` | extension/lib/transfer.ts:424-470 | The first stretch of sendFile: one record object in history order, one state object in the map, the announcement, or failure when the channel is closed or refuses |
| `TransferEngineModule.TransferEngine.SettleAccept` | extension/lib/transfer.ts:653-666 | The timer, the peer's answer or a settlement resolves the wait; whoever comes second does nothing |
| `TransferEngineModule.TransferEngine.AwaitDrain` | extension/lib/transfer.ts:630-651 | A call told to stop, or one that finds the buffer at or below the mark, does not wait; any other leaves one waiter with both listeners and its own state |
| `TransferEngineModule.TransferEngine.RunWaiter` | extension/lib/transfer.ts:634-643 | A waiter takes itself off both listeners and its state and resolves once; when it is run again nothing happens |
| `TransferEngineModule.TransferEngine.RunWaiters` | extension/lib/transfer.ts:645-649 | A drain event or a close runs a snapshot of the listeners, which shrinks as they run: every parked call wakes and nothing else changes |
| `TransferEngineModule.TransferEngine.SettleOutgoing` | extension/lib/transfer.ts:974-990 | Settling one send: aborted set, the wait for the answer resolved, every waiter run, the entry gone and the shared record finished and filed, once and by id; which status that is, over all that ends a send, is `Outcomes.SendEnds` |
| `TransferEngineModule.TransferEngine.ResumeSendFile` | extension/lib/transfer.ts:469-477 | After the wait: settle as declined, or go active and start reading |
| `TransferEngineModule.TransferEngine.StreamRead` | extension/lib/transfer.ts:566-584 | One read of the stream, carried tail included, up to the next await |
| `TransferEngineModule.TransferEngine.StreamReadDone` | extension/lib/transfer.ts:586-592 | The end of the stream: the tail goes out as the last chunk, or completion is announced |
| `TransferEngineModule.TransferEngine.StreamSendChunk` | extension/lib/transfer.ts:611-627 | One chunk after its wait: nothing when told to stop, otherwise sent and counted, or the transfer fails |
| `TransferEngineModule.TransferEngine.StreamContinue` | extension/lib/transfer.ts:576-592 | From one resolved sendChunk to the next await |
| `TransferEngineModule.TransferEngine.HandleStart` | extension/lib/transfer.ts:703-772 | An announcement up to its consent question, the size refusals and the missing handler included |
| `TransferEngineModule.TransferEngine.ResumeHandleStart` | extension/lib/transfer.ts:782-794 | The answer to a prompt, which holds its own state object and looks the transfer up by id: it may settle another transfer's place with its own record; that the answer goes out is `TransferTalk.AnswersAreSent` |
| `TransferEngineModule.TransferEngine.HandleBinary` | extension/lib/transfer.ts:796-839 | One binary frame: dropped and counted, appended and acknowledged, or the transfer failed for exceeding its size |
| `TransferEngineModule.TransferEngine.HandleComplete` | extension/lib/transfer.ts:841-900 | A completion: echo ignored, failed when short, otherwise the chunks joined and the file emitted once |
| `TransferEngineModule.TransferEngine.HandleRemoteCancel` | extension/lib/transfer.ts:902-914 | A cancel from the peer, in either direction |
| `TransferEngineModule.TransferEngine.HandleFrame` | extension/lib/transfer.ts:670-701 | The dispatch over frame types |
| `TransferEngineModule.TransferEngine.Cancel` | extension/lib/transfer.ts:515-527 | A local cancel, outgoing first, which wakes the call |
| `TransferEngineModule.TransferEngine.SettleIncoming` | extension/lib/transfer.ts:992-1002 | Settling one receive, by id and with the record of the state object passed in; with which status is `Outcomes.RecvEnds` |
| `TransferEngineModule.TransferEngine.HandleChannelClose` | extension/lib/transfer.ts:916-924 | Both teardown loops, over snapshots of maps that shrink under them: every live transfer of both directions fails, each with its own record, each call woken; as failed, by `Outcomes.TeardownOutcomes` |
| `TransferEngineModule.TransferEngine.DisposeEngine` | extension/lib/transfer.ts:530-548 | The same for dispose, once |
| `PairingTheorems.TokenAgreement` | daemon/peer/pairing.go:236-307 | In every run of any number of daemons, humans, timers, dying sockets and forgetting in any order: if the dialer of an attempt stored a token, the responder of that attempt had stored the same one, under the dialer's id |
| `PairingScreens.ShownIsDialled` | daemon/peer/dialer.go:94-109 | Whenever a dialer shows a code, the daemon that answered is the device its human picked, or the digits derived for the two devices on the very nonce in use collide, though any daemon may have answered on the address that was dialled |
| `PairingScreens.TokensAreMutual` | daemon/peer/pairing.go:279-289 | So a token the dialer stored is filed by the two daemons under each other's id, but for such a collision |
| `PairingTheorems.NoTrustWithoutBothHumans` | daemon/peer/pairing.go:208-266 | If either end of an attempt stored a token, both humans accepted that very attempt (a Confirm that found it pending), and both screens showed the same six digits |
| `PairingTheorems.ScreensAgree` | daemon/peer/dialer.go:97-112 | Whenever both ends of an attempt show a code, it is the same code |
| `PairingTheorems.TrustIsEarned` | daemon/peer/pairing.go:279-289 | Every entry of every trust store is the token of some attempt of that daemon with that device which both humans accepted |
| `PairingTheorems.OneResult` | daemon/peer/pairing.go:170-336 | At most one OnPairResult per attempt and end; exactly one once an attempt whose StartPairing succeeded, or whose code was shown, is over; a success exactly when a token was stored and saved, so a failure adds no trust unless the write failed |
| `PairingTheorems.SuccessNeedsConsent` | daemon/peer/pairing.go:134-164 | A success is reported only where this side's human accepted this attempt |
| `PairingDelivery.TokenIsOnItsWay` | daemon/peer/pairing.go:279-306 | A token is never lost: once a responder has stored it and its live socket has taken the frame, then in every run from there the token is in the queue to the dialer, in its event buffer, in its hands or stored, or the dialer had chosen its outcome, lost its socket, or holds an event that ends its pairing |
| `PairingTogether.BothSucceed` | daemon/peer/pairing.go:173-307 | Once both humans have accepted and both drivers are in their selects: every run in which no step of this attempt fails or times out, nobody says no, cancels or loses a socket, while the rest of the world does as it likes, ends, whenever this attempt comes to rest, with the same token stored and one success reported at both ends |
| `PairingTogether.SuccessIsInReach` | daemon/peer/pairing.go:173-307 | And rest is always in reach: from wherever such a run stands, at most 64 more steps of the two ends bring it there |
| `PairingTogether.StrangersCanPair` | daemon/peer/dialer.go:22-178 | From any two devices that know nothing of each other there is a run that ends so |
| `PairingSuccess.DiallerNearer` | daemon/peer/pairing.go:173-307 | Every step of the dialing end in which nothing fails keeps such an attempt on its way, and uses up part of what is left to do if there was anything to do |
| `PairingSuccess.AnswererNearer` | daemon/peer/pairing.go:173-307 | And every such step of the answering end |
| `PairingRefusals.ArmsFail` | daemon/peer/pairing.go:193-256 | What each arm of the select fails a pairing for, and whether the other side is told |
| `PairingRefusals.FailureIsReported` | daemon/peer/pairing.go:312-337 | A failed pairing closes its socket, with its reason as the last word if there is one to be said, and then reports that reason |
| `PairingRefusals.RefusalIsOnItsWay` | daemon/peer/pairing.go:308-319 | A refusal is never lost: once it has been sent, then in every run from there the other end has it on the way, has chosen its outcome, lost its socket, or holds an event that decides |
| `PairingRefusals.StrayFramesClose` | daemon/peer/pairing.go:347-406 | Which frames a driver is told of: an accept of this very device, a well-formed token, a refusal; any other frame, or one for a pairing that is not the pending one, closes the socket |
| `PairingReasons.FailureHasACause` | daemon/peer/pairing.go:308-337 | Nobody makes a reason up: over every run, a failure that is reported with a reason has an event of that run as its cause, at this end or the other end of the same attempt, that gives that very reason |
| `PairingReasons.DeclinedMeansNo` | daemon/peer/pairing.go:208-216 | So a pairing is reported as declined only where one of its two humans said no to it or its device was forgotten |
| `PairingReasons.TimeoutMeansTimer` | daemon/peer/pairing.go:199-206 | And as timed out only where the timer of one of its two drivers fired, or a no came with that word |
| `PairingTheorems.OnePairingPerDevice` | daemon/peer/pairing.go:100-111 | No daemon ever has two live pairings with one device |
| `PairingTheorems.LateAnswerChangesNothing` | daemon/peer/pairing.go:150-163 | A Confirm that arrives after the driver has left its select changes nothing about the end but its buffer, and no frame it sends, whatever steps follow |
| `PairingAnswers.SecondAnswerMatters` | daemon/peer/pairing.go:156-163 | Exactly when a second answer can change what becomes of a pairing this side has accepted: it is a reject, the driver is still in its select, and the buffer is empty |
| `PairingRuns.SecondAnswerIsTaken` | daemon/peer/pairing.go:137-139 | A run in which a second answer is not refused: an accepted pairing is reported as declined by the same human |
| `PairingForget.ForgetMayComeTooLate` | daemon/peer/peer.go:615-619 | For every end Forget can find, at every stage from registration to the last deferred call: a token can still go into the store after the order to stop, in some order of everything that can happen and with some far end, if and only if the end had agreed on a usable token and not yet stored it, or was in its select with the right things in hand; never before the select |
| `PairingForget.ForgetFinds` | daemon/peer/pairing.go:113-117 | In every run, what Forget finds pending is an end that condition speaks of: between its registration and its endPairing, its buffer within capacity and, before the select, holding nothing but orders to stop |
| `PairingForget.ForgottenInTime` | daemon/peer/peer.go:615-619 | And in the world: a pending pairing that does not meet the condition when its device is forgotten stores no token in any run from there |
| `PairingForget.WorldHappens` | daemon/peer/pairing.go:173-336 | Every event of the world is, for each end, one of the happenings that condition ranges over, or nothing |
| `PairingRuns.ForgottenIsStored` | daemon/peer/peer.go:615-621 | A run in which it does: the order to stop waits behind an accept, and the device just forgotten is trusted again |
| `PairingRuns.ForgottenBeforeTheStore` | daemon/peer/pairing.go:260-285 | The plainest such run: the driver has left its select with a token, the device is forgotten, and the driver's next action puts it back into the store |
| `PairingTheorems.EveryAttemptEnds` | daemon/peer/pairing.go:184-206 | From every reachable state and in every run, whatever happens in between and whatever sends, writes and the far side answer: an end that has taken ten steps it can take by itself has finished |
| `PairingTheorems.RankNeverGrows` | daemon/peer/pairing.go:187-268 | No step of an end, of any kind, takes it further from its finish |
| `PairingTheorems.YesIsConsent` | daemon/peer/pairing.go:208-220 | An end that accepted, or holds an accept, got it from a Confirm made while that attempt was the pending one |
| `PairingDriver.DriverReportsOnce` | daemon/peer/pairing.go:173-269 | Against any peer, honest or not: a driver whose select has chosen reports exactly once, a success exactly when a well-formed token was stored and saved and never without this side's human; one that has not chosen has reported nothing |
| `PairingWorld.RunKeeps` | daemon/peer/pairing.go:96-132 | The invariant behind all of these: every event keeps, for every attempt, the agreement of both ends and of the frames between them, the pending sets in step with the live ends, and every trust entry accounted for |
| `PairingWorld.MovedKeeps` | daemon/peer/pairing.go:187-268 | Any step of any end keeps that invariant |
| `PairingWorld.CancelledKeeps` | daemon/peer/peer.go:615-619 | So does the first part of Forget, telling a pairing in flight to stop |
| `PairingWorld.RemovedKeeps` | daemon/peer/peer.go:621-621 | And its second, at any later moment, taking the device out of the store |
| `PairingInvariant.ActKeeps` | daemon/peer/pairing.go:173-406 | One step of one end, whatever the world answers, keeps what its frames, its event buffer and its own fields claim about the far end |
| `PairingInvariant.FirstFrameKeeps` | daemon/peer/dialer.go:84-139 | The dialer's first frame: a code is shown only if the derived one equals the one that came along |
| `PairingInvariant.HelloKeeps` | daemon/peer/listener.go:103-212 | The responder's first frame: refused for its version, its id, the limit or a pairing in flight, or registered with a fresh code |
| `PairingManager.Pairing.RunPairing` | daemon/peer/pairing.go:173-269 | The driver loop and what follows it, as a fold over what happens around it; that the token goes out is `PairingDelivery.TokenIsOnItsWay` |
| `PairingManager.Pairing.SelectLoop` | daemon/peer/pairing.go:189-268 | The select loop: turns are taken until an arm chooses the outcome |
| `PairingManager.Manager.BeginPairing` | daemon/peer/pairing.go:103-111 | A second pairing with one device is refused and changes nothing |
| `PairingManager.Manager.EndPairing` | daemon/peer/pairing.go:119-132 | Removes this pairing and no other |
| `PairingManager.Manager.Confirm` | daemon/peer/pairing.go:141-164 | An answer reaches the pairing pending for its device, if there is one with room, and no other |
| `PairingManager.Manager.HandlePairingFrame` | daemon/peer/pairing.go:347-406 | Which frame becomes which event, and which closes the socket |
| `PairingCode.CodeSymmetric` | daemon/protocol/pairing.go:43-56 | The code is the same from both ends |
| `PairingCode.CodeIsSixDigits` | daemon/protocol/pairing.go:52-62 | It is always six digits, and they read back as the reduced digest |
| `PairingCode.ValidLowerHex` | daemon/protocol/pairing.go:110-124 | The scan accepts exactly the strings of the wanted length in lower-case hex |
| `PairingCode.PrecedesTotal` | daemon/protocol/pairing.go:53-56 | The order used to sort ids, and to decide who yields in a glare, is total and strict |
| `PairingCode.PrecedesWhereTheyPart` | daemon/protocol/pairing.go:53-56 | And which of two ids comes first: where they first part, the one that ends there, or else the one with the smaller character |
| `ConnLife.FiledSocketsHaveShownIt` | daemon/peer/listener.go:82-89 | Only authenticated sockets are live: in every run and with any far end, a socket in the registry is filed under its own device, and either its hello carried the token the trust store then had for that device, or it was dialled with that token and answered with peer:ready, or its own pairing attempt stored a token for that device after this side's human had accepted it |
| `ConnLife.ReplacedOnlyByNewer` | daemon/peer/peer.go:391-405 | Exactly what ends a device's live socket: its own teardown, a newer socket registered for the device, which then has the place, forgetting, or a lookup that finds it dead; the teardown of an evicted socket does not |
| `ConnLife.NewestStaysLive` | daemon/peer/peer.go:371-405 | And over runs: the live socket stays until one of those happens |
| `ConnLife.TornDownHoldsNoSlot` | daemon/peer/listener.go:71-72 | A torn-down socket holds no handshake slot, because the release deferred after the teardown runs before it |
| `ConnLife.HandshakesAreCounted` | daemon/peer/peer.go:451-468 | The counter is the number of sockets holding a slot, never more than 64, its clamp at zero never acts, and a slot is held only while its handler is still on the way to its deferred release |
| `ConnLife.OneDialPerDevice` | daemon/peer/dialer.go:181-206 | At most one dial of a device is in flight |
| `ConnAdmit.TokenIsAdmitted` | daemon/peer/listener.go:82-104 | A trusted device whose hello carries the token stored for it is verified, marked paired and made the live socket of its id, from any state and whoever held that place |
| `ConnAdmit.WrongTokenIsAStranger` | daemon/peer/listener.go:82-104 | Any other first frame changes neither the registry nor the store, and leaves the socket unpaired or gone |
| `ConnAdmit.TrustedIsDialled` | daemon/peer/dialer.go:184-206 | A trusted device that nobody is dialling is dialled, and is live once it answers |
| `ConnAdmit.DialsEnd` | daemon/peer/dialer.go:196-206 | When a dial ends, its device and no other is free for the next one |
| `ConnAdmit.SlotsAreGranted` | daemon/peer/peer.go:452-460 | A handshake slot is there for the asking exactly while fewer than 64 are held |
| `ConnForget.ForgetLeavesSockets` | daemon/peer/peer.go:608-625 | Exactly when forgetting closes a device's connection for good: from every reachable state in which it is neither trusted nor live, it can have a live socket again without being trusted again if and only if a socket of it is on the way, verified or answered and not yet registered, or with its token stored and not yet promoted |
| `ConnForget.ForgottenStaysLive` | daemon/peer/listener.go:82-89 | A run in which it does not: verified before Forget, registered after it |
| `ConnForget.TrustedUnlessForgotten` | daemon/peer/peer.go:621-621 | In every run, the device of a live socket is missing from the store if and only if it has been forgotten and not paired again since |
| `ConnForget.LiveThoughForgotten` | daemon/peer/peer.go:621-625 | And then what the socket had shown is older than that Forget, and if Forget has come to closing what is live, the socket was filed after that |
| `ConnLife.RunKeeps` | daemon/peer/listener.go:43-67 | The invariant behind these, kept by every step of every socket |
| `Registry.ConnRegistry.RegisterConn` | daemon/peer/peer.go:375-389 | The newest socket is the live one; the evicted socket, and no other, is closed |
| `Registry.ConnRegistry.UnregisterConn` | daemon/peer/peer.go:393-405 | Only the live socket itself gives up its place |
| `Registry.ConnRegistry.Teardown` | daemon/peer/listener.go:229-237 | A device goes offline only when its live socket went down |
| `Registry.ConnRegistry.LiveConn` | daemon/peer/peer.go:407-419 | A dead entry is dropped; what is returned is live, authenticated and filed under that id |
| `Registry.ConnRegistry.AcquireHandshake` | daemon/peer/peer.go:452-460 | A slot exactly when fewer than 64 are taken |
| `Registry.ConnRegistry.ReleaseHandshake` | daemon/peer/peer.go:462-468 | Gives one slot back |
| `Registry.ConnRegistry.BeginDial` | daemon/peer/dialer.go:184-199 | The single-flight gate |
| `Glare.QuietMeansAgreed` | extension/lib/webrtc.ts:306-390 | In every interleaving of connects and deliveries in which one or both sides connect: once both queues are empty, both sides are stable on matching offer and answer descriptions, set if anyone connected, and no browser call has thrown |
| `Glare.SmallerIdWins` | extension/lib/webrtc.ts:352-363 | Once offers have truly crossed, whatever happens next, the agreement is on the offer of the smaller id |
| `Glare.NobodyWaitsForNothing` | extension/lib/webrtc.ts:352-356 | No reachable state leaves a side in have-local-offer with nothing under way |
| `Glare.EveryStepCounts` | extension/lib/webrtc.ts:306-319 | Every step that does anything uses up part of a budget of six, and a delivery always does something, so every negotiation comes to rest |
| `Glare.RunKeeps` | extension/lib/webrtc.ts:349-390 | The seven shapes a negotiation can be in, kept by every step |
| `Glare.FavoursStays` | extension/lib/webrtc.ts:352-363 | A collision stays on course for the smaller id's offer |
| `PeerLinkModule.PeerLink.Connect` | extension/lib/webrtc.ts:306-319 | connect(): at most one offer per side |
| `PeerLinkModule.PeerLink.OnOffer` | extension/lib/webrtc.ts:349-379 | An inbound offer: answered, ignored by the side that wins a collision, or answered after a rollback by the side that loses |
| `PeerLinkModule.PeerLink.OnAnswer` | extension/lib/webrtc.ts:381-390 | A late or duplicate answer is ignored |
| `PeerLinkModule.RtcPeerConnection.SetLocalDescription` | extension/lib/webrtc.ts:371-372 | The signalling state machine of section 3.2 of RFC 8829, local side |
| `PeerLinkModule.RtcPeerConnection.SetRemoteDescription` | extension/lib/webrtc.ts:367-387 | The same, remote side |
| `PeerLinkModule.RtcPeerConnection.RollbackLocal` | extension/lib/webrtc.ts:362-362 | Rollback drops the pending offer and keeps the current descriptions |
| `IceParking.EveryCandidateIsSomewhereOnce` | extension/lib/webrtc.ts:392-413 | With candidates arriving even during a flush: on an open link each one is parked, in the one flush, or handed to addIceCandidate, exactly once |
| `IceParking.NothingBeforeADescription` | extension/lib/webrtc.ts:400-403 | None is handed over before a remote description is applied |
| `IceParking.ParkedKeepTheirOrder` | extension/lib/webrtc.ts:407-413 | Parked candidates are handed over in arrival order, and so are later ones; once the flush is through, all have been |
| `IceParking.RunKeeps` | extension/lib/webrtc.ts:392-430 | The invariant behind these, kept by every step between two awaits |
| `IceParking.CandidateIntake.HandleIce` | extension/lib/webrtc.ts:392-405 | One candidate: parked, handed over, or ignored on a closed link |
| `IceParking.CandidateIntake.DescriptionApplied` | extension/lib/webrtc.ts:367-413 | setRemoteDescription resolves: the parked candidates are taken out at once and the first is handed over |
| `IceParking.CandidateIntake.ResumeFlush` | extension/lib/webrtc.ts:407-430 | One turn of the flush loop |
| `IceParking.CandidateIntake.Shut` | extension/lib/webrtc.ts:517-521 | Closing drops what is parked |
| `Freshness.SightedIsShownOnline` | daemon/server/devices.go:209-236 | End to end, on one clock and with events applied in order: a device that answered at most 20 s ago, with no event about it still in the channel, is shown online, on the address, port, version and platform of its last acceptable answer, under the name that answer gave or its id if that was blank, and as paired exactly if it is trusted; whatever was suppressed, delayed, swept, marked offline or rounded before |
| `Freshness.OnlineWasSighted` | daemon/server/devices.go:125-171 | The other way round: a device shown online was seen by an answer that was passed on, at most 30 s of clock milliseconds ago, and is shown as that event described it |
| `Freshness.KnownAsAnswered` | daemon/discovery/browse.go:269-334 | Over every run of answers, ticks and sweeps: for each device in the table, the table and whoever only follows the events have the id, name, address, port, version and platform of the last acceptable answer for that id |
| `Discovery.ObservedIsAnnounced` | daemon/discovery/mdns.go:175-200 | One answer, in its own fields: it puts them into the table and into the event it emits, or the table had them already; no other device is touched, and an answer that is not acceptable changes nothing |
| `Freshness.SightingLasts` | daemon/discovery/browse.go:336-361 | A sighting stays in the table until its lifetime has run out |
| `Freshness.RunKeeps` | daemon/cmd/daemon/main.go:211-230 | The roster follows a plain replay of what it has been told, short of what staleness may have put offline or dropped; kept by every answer, tick, delivery and sweep |
| `Freshness.FreshInMillis` | daemon/discovery/mdns.go:66-70 | The slack of the constants adds up: 20 s since the sighting and less than 10 s since its emission never look stale in whole milliseconds |
| `Discovery.ObserveKeepsStep` | daemon/discovery/browse.go:269-334 | Folding the emitted events gives the sighting table's keys and every visible field after every observe; each id's events follow (add update* remove)*; the replayed last-seen lags the sighting by less than emitRefreshAfter |
| `Discovery.SweepKeepsStep` | daemon/discovery/browse.go:336-361 | And after every sweep, even one whose tick comes late |
| `Discovery.Browser.Observe` | daemon/discovery/browse.go:269-334 | One mDNS answer, with that invariant; the table and the event then have the fields it announced |
| `Discovery.Browser.Fold` | daemon/discovery/browse.go:269-334 | One answer: ignored when it is this device, has no id, port or address; otherwise an add, a suppressed refresh, or an update, with the fields it announced |
| `Discovery.Browser.Sweep` | daemon/discovery/browse.go:339-361 | One sweep, with that invariant |
| `Discovery.Browser.Retire` | daemon/discovery/browse.go:340-360 | One removal per expired device, in order of id, each shown offline |
| `Roster.Server.UpsertDevice` | daemon/server/devices.go:78-103 | A sighting taken as unchanged leaves the roster exactly as a plain overwrite would; only the push is saved |
| `Roster.Server.RemoveDevice` | daemon/server/devices.go:106-119 | A push only if the device was there |
| `Roster.Server.SweepDevices` | daemon/server/devices.go:214-242 | The in-place sweep equals the sweep of the whole map, with a push exactly when something changed |
| `Roster.Server.Devices` | daemon/server/devices.go:125-171 | What is shown: trust and clock stamped on, and every trusted device that is not on the air |
| `Roster.Server.NormaliseDevice` | daemon/server/devices.go:305-326 | Blank fields filled in, this device kept out |
| `Roster.SweepIsUnseen` | daemon/server/devices.go:138-142 | Devices() derives status from the clock, so a sweep changes nothing anyone later sees of the devices it keeps |
| `Roster.SweepDropsOnlyTheLongGone` | daemon/server/devices.go:35-38 | A sweep takes from view exactly the untrusted devices that have been unseen for more than 60 s, all of them shown offline already |
| `Roster.ShownIs` | daemon/server/devices.go:125-171 | What is shown, field by field: what is on the air, offline after 30 s, and what is trusted, with its stored name and last-seen; each marked as paired exactly if it is trusted |
| `Roster.UnchangedIsUnseen` | daemon/server/devices.go:330-337 | A sighting counts as unchanged exactly if nothing but a last-seen less than 10 s later would show |
| `Roster.NormalisedIs` | daemon/server/devices.go:305-326 | What a device becomes on its way in, field by field; this device and one without an id stay out |
| `SortedIds.SortKeys` | daemon/discovery/browse.go:349-349 | The sorted list of a map's keys, each once |
| `SortedIds.ListsUnique` | daemon/config/trust.go:375-382 | There is one such list |
| `Debounce.EveryChangeIsPushedInTime` | daemon/server/devices.go:267-289 | After any roster change, whatever further changes, re-armed or orphaned timers and immediate broadcasts do: a push that will include it is under way, or a timer is armed to start one within 1.7 s of it |
| `Debounce.RunKeeps` | daemon/server/devices.go:247-301 | The invariant behind it, kept by every critical section and every firing |
| `Debounce.DevicePusher.ScheduleDevicesBroadcast` | daemon/server/devices.go:267-282 | A new timer, a re-armed one, or neither once the window is 1.5 s old |
| `Debounce.DevicePusher.FlushDevices` | daemon/server/devices.go:284-289 | A flush empties devTimer, whichever timer is in it |
| `Debounce.DevicePusher.TakeDeviceTimer` | daemon/server/devices.go:293-297 | stopDeviceTimer up to its unlock |
| `Debounce.DevicePusher.StopTaken` | daemon/server/devices.go:298-300 | and after it |
| `RateLimiter.Limiter.Allow` | daemon/peer/ratelimit.go:47-65 | True exactly when fewer than limit allowed attempts of that key lie in the last window, as in a history that keeps everything; pruning and sweeping are unobservable, and after a sweep every other key still has an attempt in the window |
| `RateLimiter.Limiter.Remaining` | daemon/peer/ratelimit.go:69-79 | What is left of the budget; nothing later answers differently for its having been called |
| `RateLimiter.Limiter.SweepLocked` | daemon/peer/ratelimit.go:83-94 | Drops exactly what no later call can see |
| `RateLimiter.Limiter.Prune` | daemon/peer/ratelimit.go:99-110 | The timestamps later than the cutoff, in order |
| `RateLimiter.NoWindowOverflows` | daemon/peer/ratelimit.go:14-26 | No interval (s, s + window] ever holds more than limit allowed attempts of a key |
| `RateLimiter.FiveAMinute` | daemon/protocol/messages.go:64-69 | With the daemon's constants: never more than five in any sixty seconds |
| `RateLimiter.AfterAfter` | daemon/peer/ratelimit.go:53-53 | Pruning early loses nothing a later cutoff would have kept |
| `TrustDurability.FileEqualsMemory` | daemon/config/trust.go:228-243 | In every interleaving of Add, Remove, Touch and Rename with crashes: whenever the write lock is free and no write has failed since the start, loading the file gives the memory, and the file is the memory's snapshot, the only one there is, if and only if something has been written or the file found at the start was a snapshot |
| `TrustDurability.CrashKeepsWhatWasAcknowledged` | daemon/config/trust.go:384-454 | After a crash at any step, failed writes or not, loading yields the memory after a prefix of the mutations that contains every one that had reported success |
| `TrustDurability.RunKeeps` | daemon/config/trust.go:211-315 | The invariant behind these |
| `TrustStoreModule.LoadSnapshot` | daemon/config/trust.go:128-138 | The load filter drops nothing the store ever wrote |
| `TrustStoreModule.SnapshotUnique` | daemon/config/trust.go:373-382 | A memory has exactly one snapshot |
| `TrustStoreModule.MutateKeeps` | daemon/config/trust.go:211-221 | Records stay under their own ids with usable tokens; a mutation that stops short changes nothing |
| `TrustStoreModule.MutationsMeanThat` | daemon/config/trust.go:211-315 | What each mutation does to its device, field by field, when it is refused or has nothing to write, and that every other device keeps its presence and its whole record |
| `TrustDurability.TokenIsTheLastPaired` | daemon/config/trust.go:211-339 | Over every run, crashes included: the token a device authenticates with is that of its last Add with no later Remove of that device, or the one in the file at the start, whatever happens to other devices |
| `TrustStoreModule.TrustStore.constructor` | daemon/config/trust.go:128-138 | Loading skips what could never authenticate |
| `TrustStoreModule.TrustStore.SnapshotLocked` | daemon/config/trust.go:375-382 | All records and nothing else, in order of id |
| `TrustStoreModule.TrustStore.WriteLocked` | daemon/config/trust.go:390-454 | The old file or the new one, never anything between |
| `TrustStoreModule.TrustStore.Add` | daemon/config/trust.go:211-244 | Memory is updated before the write and not rolled back when the write fails; the record is the one paired, and every other record stays |
| `TrustStoreModule.TrustStore.Remove` | daemon/config/trust.go:249-269 | An unknown device is no error and writes nothing |
| `TrustStoreModule.TrustStore.Touch` | daemon/config/trust.go:275-291 | Last-seen of a trusted device, or no such peer |
| `TrustStoreModule.TrustStore.Rename` | daemon/config/trust.go:295-315 | A new name is written, the same name is not |
| `TrustStoreModule.TrustStore.VerifyToken` | daemon/config/trust.go:325-339 | Accepts exactly the stored token of a known device |

## Left out

- Transfer ids are assumed never reused by `sendFile` (`crypto.randomUUID`); ids a peer announces are arbitrary, and `Settlement.FreshIdsExactly` says which of them do harm.
- Timestamps, error texts and progress throttling. The class keeps the history as the list it is, newest first; the machines keep it as a map from record object and id, without its order.
- A declared size that is not an integer takes the refusal branch for invalid sizes.
- `sendText`'s inline path, `parseFrame`, JSON and the message validators: frames are datatypes, malformed text is no frame.
- Blob and object-URL handling: making a URL may fail, as an argument of the step, and nothing else is modelled of it.
- Streams that yield a different number of bytes than the declared size are covered; streams whose reads fail settle the transfer and are covered; the release of the reader's lock is not.
- `daemon/peer/conn.go`: the write loop, keepalive and close grace are a queue that may be cut and a flag that the socket is alive; a send may fail at any time.
- Reading a pairing frame that has already left the socket is allowed even after the socket was closed, which is more than the code does.
- `runPairing`'s guard for a missing socket, which neither caller reaches, and pairing frames whose JSON is malformed, which close the socket like the other misplaced ones.
- `OnPeerState`, the address book, reconnect back-off, signal relaying and the token handshake of `ensureConn` beyond its effect on the registry and the pairing offer.
- `ConnLife` follows one daemon: what a far end sends is arbitrary, and a human's answer goes to the attempt of a socket. Which attempt the answer for a device reaches, and what both ends then agree on, is the part of `PairingWorld`.
- Keepalive, address choice and the time limits of a handshake: a socket may die, and a handler may return, at any step.
- SHA-256, crypto/rand and constant-time comparison: an arbitrary function, arguments, and equality. No claim about secrecy or timing.
- Go compares strings by bytes and JavaScript by UTF-16 units; both are character order here, which is the same for the ASCII ids in use.
- In the two-party glare claim `connect` and each offer or answer handler is atomic, so `makingOffer` is never seen set; data channels, ICE, provisional answers, browser failures and closing are not part of it.
- Signals from a device other than the link's own are dropped before they reach either WebRTC model (`extension/lib/webrtc.ts:324`), and nothing is handled on a closed link.
- The candidate claim covers one link until it is closed; what the browser does with a candidate is not modelled.
- mDNS, address scoring (a sighting carries the address that was picked, if any), the interface refresh and the zeroconf cycle.
- The order in which `Devices()` lists devices, and `SetDevices`, which nothing calls outside its own tests.
- `Server.stopDeviceTimer` at shutdown, after which no push is owed.
- The trust file's JSON, permissions and quarantine: the file is the list of its records, and rename is atomic and durable.
- `DaemonClient`, background push queue, advertiser, configuration identity, logging, user interface.
