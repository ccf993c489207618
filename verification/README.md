# TunnelMesh: a verified model of its hard parts

TunnelMesh carries many logical streams over one ordered connection between a client, a server and an
agent. This project models the parts of it whose correctness depends on several goroutines, two ends of a
wire or a sequence of transactions, and proves what they promise on every run.

- **Streams and credit** (`FlowControl`, `StreamState`, `ClientStream`, `AgentStream`, `ReadTermination`):
  one direction of a stream is a sender and a receiver joined by a channel of DATA frames one way and a
  channel of WINDOW_UPDATE frames the other. An event is one section under a mutex or one channel operation.
- **The agent's stream table** (`Dispatcher`, `AgentStream`): dialers, target readers, writer pumps, the
  frame reader and Close, interleaved at the granularity of the mutex.
- **Admission** (`Admission`): the dispatcher's ceiling together with the dial executor's queue and workers.
- **Schedulers** (`SessionPool`, `Controller`): the client's session pool and the agent's connection
  controller.
- **Bounded tables** (`Echo`, `UdpTable`, `ValidationCache`): sequence allocation and demultiplexing,
  association eviction, and single-flight validation with a cache.
- **Wire formats** (`Bytes`, `FrameCodec`, `ExecRequest`, `ExecOutput`): frames, script requests in arbitrary
  fragments, and script output records under a shared byte budget.
- **Login and accounts** (`Login`, `Accounts`): interleaved login attempts over atomic storage calls, and
  account, provisioning and unlink transactions.

Each concurrent component is a value `State`, an `Event` datatype, a `Step` in which a disabled event does
nothing, and `Exec`, the state after a schedule. A theorem about `Exec(…, es)` for arbitrary `es` is therefore
a statement about every interleaving. Beside each machine stand classes and loops in the source's own
imperative form, whose postconditions equate the new state with a step of the machine or with the functions its
steps are built from. The network, clocks, randomness, JSON, cryptography and the order in which a map is
iterated are parameters or arbitrary choices.

Where the code does less than its comments say, the model follows the code and the exact condition is proved:

- A peer that spends only its credit is never reset *if and only if* the inbound buffer holds the window.
  `SetInboundBufferBytes` (`internal/agent/session.go`, lines 853-861) only checks for two frames, although
  the comment at lines 115-118 says the buffer can never be smaller than the window.
- The queue refuses a frame also when it holds as many frames as it may hold bytes, and a refused half-close
  marker is dropped silently. It is never lost *if and only if* the buffer is strictly larger than the window.
  The defaults make them equal.
- A sender at rest can afford a whole 32 KiB piece *if and only if* the window holds one. The configuration's
  bound on window minus threshold is sufficient but not necessary, because a receiver whose window fell below
  one piece returns credit early. A datagram is sent whole and can be larger. It can always be afforded at rest
  *if and only if* it is within an explicit function of window and threshold.
- `frameStream.Read` looks at the queue and then at the error. It reports the end with every accepted byte
  returned *if and only if* nothing was queued between the two looks.
- A dial that succeeds after its open was abandoned still registers a stream. Live and pending streams exceed
  the ceiling by at most the number of such dials, and under every ceiling some run exceeds it.
- When the dispatcher's Close returns after the last frame was handled, everything is closed. The program calls
  it that way (`internal/agent/websocket.go`, line 135). Called beside the frame reader, Close can leave open
  one connection, which the frame reader is already about to close.
- An echo's release is by sequence number alone. It is the sender's own as long as the counter advanced fewer
  than 65536 times, and after exactly 65536 advances it need not be.
- The connection controller scales up without waiting for the cooldown. It scales down the id that is greatest
  as a string, which is the newest *if and only if* every other live number, filled up with zeros to the newest
  one's length, is at most the newest one.
- Closing the validation cache forgets what is in flight, so single flight per key holds until then and not
  after.
- An empty write after the output budget is spent also marks a run truncated.
- A TOTP step is charged to whatever enrolment row the user has when it is marked used. That row differs from
  the one the code was checked against *if and only if* the user enrolled anew in between, and two sessions rest
  on one step of one checked enrolment only in that case.
- A challenge's budget of wrong codes is charged after the check. The codes checked for it are bounded by the
  budget together with the verifications under way when it was consumed: one at a time is held to the budget,
  several at once are not.
- A stream of frames cut right behind a header reads as a clean end of input, as one cut between frames does.
- An account labelled external has no password *if and only if* no operation reset the password of an external
  account: a reset does not change the label (`internal/auth/account_service.go`, lines 142-165).

`dafny verify dfyconfig.toml` checks the whole project.

## Model

| member | source | states |
|---|---|---|
| FlowControl.CreditConserved | internal/agent/session.go:582-630 | on every run that has not reset the stream, sender credit, DATA in flight, bytes queued or in hand, bytes taken, unacknowledged, being credited or announced, and updates in flight add up to the initial window |
| FlowControl.BytesInOrder | internal/client/session.go:976-1000 | on every run, reset or not, consumed bytes followed by those waiting are the accepted ones, accepted bytes are a prefix of the sent ones, what an unreset stream lacks is on the wire, and processing the half-close marker means all was consumed |
| FlowControl.ResetUnreachableIffBufferHoldsWindow | internal/agent/session.go:582-598 | no schedule of a peer that spends only its credit leads to a reset, if and only if the buffer is at least the window |
| FlowControl.DataAdmitted | internal/session/bounded_queue.go:32-55 | under the invariant and a buffer holding the window, the next DATA frame passes the receive window, the byte bound and the frame-count bound |
| FlowControl.FinNeverLostIffBufferExceedsWindow | internal/agent/session.go:531-553 | no schedule drops the half-close marker, if and only if the buffer is larger than the window |
| FlowControl.QuiescentCredit | internal/protocol/window.go:38-48 | at rest the missing credit is what the receiver has not acknowledged, less than the threshold, and a whole frame is still granted unless nothing is missing |
| FlowControl.NoStallIffWindowHoldsFrame | internal/config/config.go:1143-1148 | in every reachable state at rest the sender can afford a whole frame, if and only if the window holds one, for every threshold and buffer |
| FlowControl.NoStallIffFrameIsAffordable | internal/agent/session.go:696-727 | in every reachable state at rest the sender can afford a frame of n bytes, of whatever size, if and only if n is at most the window less what can stay unreturned below the threshold and above one piece |
| FlowControl.InternalRunsAreBounded | internal/agent/session.go:798-820 | receiver and channel steps alone always terminate, within an explicit bound, and never take credit from the sender |
| FlowControl.BlockedWriteProceeds | internal/client/session.go:919-954 | from every reachable state an affordable frame waiting for credit gets it after boundedly many receiver and channel steps, whichever they are |
| StreamState.StreamState.constructor | internal/protocol/stream.go:28-36 | a new stream starts idle with both windows at the initial window, or at the default when that is zero |
| StreamState.StreamState.OpenLocal | internal/protocol/stream.go:65-73 | only an idle stream opens |
| StreamState.StreamState.AddSendWindow | internal/protocol/stream.go:128-142 | exact addition, refused without effect on a closed or reset stream and on a 32-bit overflow |
| StreamState.StreamState.ConsumeSend | internal/protocol/stream.go:146-160 | exact subtraction, refused without effect when the stream cannot send or the credit is short |
| StreamState.StreamState.AddReceiveWindow | internal/protocol/stream.go:162-176 | exact addition with the same refusals as the send side |
| StreamState.StreamState.HandleData | internal/protocol/stream.go:178-212 | an admitted DATA frame costs exactly its size of receive window, and an unaffordable one costs nothing |
| StreamState.BoundedFrameQueue.constructor | internal/session/bounded_queue.go:23-30 | an empty open queue whose bound is at least one |
| StreamState.BoundedFrameQueue.TryPush | internal/session/bounded_queue.go:32-55 | first in, first out, and refused exactly when closed, over the byte bound or at the frame-count bound |
| StreamState.BoundedFrameQueue.TryPop | internal/session/bounded_queue.go:57-98 | takes the oldest frame and its bytes, or reports the queue empty |
| StreamState.BoundedFrameQueue.CloseAfterDrain | internal/session/bounded_queue.go:139-147 | refuses further pushes and keeps what is queued |
| StreamState.BoundedFrameQueue.Close | internal/session/bounded_queue.go:149-159 | refuses further pushes and discards what is queued |
| ClientStream.ChunksAreTheWrite | internal/client/session.go:873-917 | the frames of a write are non-empty, at most one maximal frame each, all full but the last, and concatenate to the input |
| ClientStream.FrameStream.constructor | internal/client/session.go:799-815 | a new stream has the negotiated windows, an empty queue and no terminal error |
| ClientStream.FrameStream.Finish | internal/client/session.go:1024-1031 | the first terminal reason sticks |
| ClientStream.FrameStream.Push | internal/client/session.go:976-1000 | a DATA frame is admitted exactly as the link admits it, an inadmissible one ends the stream, sends one RESET and removes the stream from the session, and after the end nothing changes |
| ClientStream.FrameStream.ReleaseReceiveWindow | internal/client/session.go:1001-1023 | consumed bytes are counted, and returned as one update for all of them exactly when a flush is due |
| ClientStream.FrameStream.Fill | internal/client/session.go:826-860 | frames are popped until one holds bytes, without losing or reordering any |
| ClientStream.FrameStream.Read | internal/client/session.go:817-871 | undisturbed, Read returns the next accepted bytes, at least one and at most the capacity, and the end only after every accepted byte |
| ClientStream.FrameStream.WaitForSendWindow | internal/client/session.go:919-954 | success spends exactly the requested credit out of what there was and what arrived, and enough arrivals always mean success |
| ClientStream.FrameStream.Write | internal/client/session.go:873-917 | whatever stops the write, the frames sent are leading chunks of the input holding exactly its first `written` bytes, and success means all of it |
| ReadTermination.ReturnedIsPrefix | internal/client/session.go:817-871 | on every interleaving of Read, push and finish, returned bytes followed by unread bytes are the accepted bytes |
| ReadTermination.NoLostWakeUp | internal/client/session.go:837-869 | a reader parked without a pending wake-up has nothing to read |
| ReadTermination.EndIsAfterEveryByteIffNothingLate | internal/client/session.go:837-849 | Read reports the end with every accepted byte returned if and only if nothing was queued between its two looks |
| ReadTermination.AtomicPassLosesNothing | internal/client/session.go:837-849 | when the two looks are one step the end always comes after every accepted byte |
| ReadTermination.EndCanOvertakeAByte | internal/client/session.go:837-849 | a schedule, in the receive loop's own order, on which the end is reported while an accepted byte is unread |
| Dispatcher.EveryConnectionIsOwned | internal/agent/session.go:442-529 | on every run each dialed connection belongs to one registered stream, is closed, or is in the hands of a goroutine retiring it, and a stream leaves the table at most once |
| Dispatcher.OnlyItsOwnStream | internal/agent/session.go:840-848 | no goroutine, however stale, unregisters a stream other than its own, and a removed stream never returns |
| Dispatcher.BothHalvesMeansPending | internal/agent/session.go:531-576 | a registered stream with both halves ended still has its marker queued or in a goroutine's hands, unless the queue refused it |
| Dispatcher.MarkerOnlyMovesForward | internal/agent/session.go:600-630 | no event pushes a marker back, and every step that carries it brings it closer or unregisters the stream |
| Dispatcher.PendingMarkerMoves | internal/agent/session.go:600-614 | while the marker is pending some step carrying it is possible |
| Dispatcher.BothHalvesEndTheStream | internal/agent/session.go:555-630 | a registered stream with both halves ended is unregistered within an explicit number of steps that carry its marker, whatever else happens in between, and such a step is always possible until then, unless the queue refused the marker |
| Dispatcher.CloseLeavesNothingOpen | internal/agent/session.go:888-918 | whenever Close returns, also when called beside the frame reader, the table is empty and every connection is closed, except one whose queue the frame reader has stopped and which it is about to close |
| Dispatcher.CloseAfterTheLastFrame | internal/agent/session.go:888-918 | when no frame is being handled at the call and none is handled afterwards, as the program arranges, Close returns with an empty table and every connection closed |
| Dispatcher.CloseCanReturnFirst | internal/agent/session.go:829-848 | a run, with Close called beside the frame reader, on which it returns while the frame reader has stopped a rejected stream's queue and not yet closed its connection |
| Dispatcher.ReturnedIsFinal | internal/agent/session.go:888-918 | after Close returns no event makes the table non-empty again |
| AgentStream.InboundStream.constructor | internal/agent/session.go:482-494 | a stream registers with its receive window and an empty bounded queue |
| AgentStream.InboundStream.AdmitInbound | internal/agent/session.go:582-598 | the window is charged and then the queue is offered the frame, exactly as the link admits DATA |
| AgentStream.InboundStream.HandleHalfClose | internal/agent/session.go:531-553 | the marker is queued behind all data, and a refusal changes nothing |
| AgentStream.InboundStream.ReleaseReceiveWindow | internal/agent/session.go:798-820 | written bytes are counted, and returned as one update exactly when a flush is due |
| AgentStream.InboundStream.PumpOne | internal/agent/session.go:600-630 | one turn writes the next frame whole before its credit is released, and a short write releases nothing |
| AgentStream.StreamDispatcher.constructor | internal/agent/session.go:143-163 | an empty open table |
| AgentStream.StreamDispatcher.CompleteDial | internal/agent/session.go:467-500 | a dialed connection is registered under a new generation exactly when the table is open and the id free, and otherwise left to be closed |
| AgentStream.StreamDispatcher.MarkLocalHalf | internal/agent/session.go:531-545 | the half-close flag is set once, and only on the entry the table still holds |
| AgentStream.StreamDispatcher.RemoveLocked | internal/agent/session.go:840-848 | a removal takes effect only on the entry the table still holds |
| AgentStream.StreamDispatcher.CloseTargetWriteLocked | internal/agent/session.go:555-576 | shutting the write half removes the stream exactly when the read half had ended and the entry is current |
| AgentStream.StreamDispatcher.ReadBackEofLocked | internal/agent/session.go:735-761 | the reader's end sets the remote half once, and removes the stream exactly when the local half had ended |
| AgentStream.StreamDispatcher.CloseLocked | internal/agent/session.go:888-905 | every registered stream is taken out and handed to the closer, and nothing can register afterwards |
| AgentStream.TakeOut | internal/agent/session.go:895-903 | emptying the table one stream at a time in any order takes out each registered entry exactly once |
| Admission.OneDialPerStream | internal/agent/dial_executor.go:130-139 | on every run two outstanding dials have different stream ids, and each can be cancelled |
| Admission.CancelsAreOutstanding | internal/agent/dial_executor.go:130-139 | on every run the cancel table holds exactly the ids of outstanding dials and of the submit in progress |
| Admission.ExactlyOneResult | internal/agent/dial_executor.go:193-210 | on every run an accepted dial has been answered at most once, unanswered ones are exactly those queued or running, and when none is each was answered once |
| Admission.CeilingExceededOnlyByStaleDials | internal/agent/session.go:249-262 | on every run live plus pending streams stay within the ceiling plus the dials that succeeded after their open was abandoned |
| Admission.AbandonedDialExceedsTheCeiling | internal/agent/session.go:442-496 | under every ceiling a run on which an abandoned dial makes one stream more than it |
| Admission.LiveAndDialingBounded | internal/agent/dial_executor.go:118-153 | on every run live streams plus outstanding dials stay within the ceiling plus the queue's size plus the number of workers |
| Admission.SubmissionIsClaimAndSend | internal/agent/dial_executor.go:130-152 | the two locked sections of a submit, run one after the other, have the effect of the uninterrupted submit |
| Admission.DialExecutor.constructor | internal/agent/dial_executor.go:69-100 | limits that are not positive become one |
| Admission.DialExecutor.Submit | internal/agent/session.go:256-274 | submitting a reserved stream's dial is the machine's claim and send, and a refused stream is taken back without leaving a cancel entry |
| Admission.DialExecutor.TrySubmit | internal/agent/dial_executor.go:118-153 | accepted exactly when valid, open, not a duplicate and not over the queue, queued last and cancellable, and a refusal changes nothing |
| Admission.DialExecutor.TakeDial | internal/agent/dial_executor.go:193-196 | an idle worker takes the oldest queued dial, which is one step of the machine |
| Admission.DialExecutor.ReportResult | internal/agent/dial_executor.go:202-207 | a dial's result is called back once, and registers or rejects the stream as the machine does |
| Admission.DialExecutor.Finish | internal/agent/dial_executor.go:207-216 | after its result a dial gives its id back, which is one step of the machine |
| SessionPool.SlotsAndSessionsBounded | internal/client/session_pool.go:335-352 | on every run there are at most Max slots and every session is in one |
| SessionPool.LoadIsOpenAcquisitions | internal/client/session_pool.go:520-558 | on every run a registered session's load is exactly its own open acquisitions, across reconnects into the slot |
| SessionPool.InitialSlotsSurvive | internal/client/session_pool.go:388-428 | on every run whose runners end only by scale-down, the first Min slots are never chosen and never leave |
| SessionPool.ScalingRespectsCooldown | internal/client/session_pool.go:430-438 | on every run consecutive scaling decisions are at least the cooldown apart |
| SessionPool.AcquisitionsStayBalanced | internal/client/session_pool.go:520-548 | from loads at most one apart, any number of acquisitions without a release keeps them at most one apart |
| SessionPool.Choose | internal/client/session_pool.go:530-547 | one pass in any order finds a healthy session no other is better than, or there is no healthy one |
| SessionPool.Survey | internal/client/session_pool.go:388-414 | the two passes of an evaluation reach the specified decision and victim |
| SessionPool.FindGreatest | internal/client/session_pool.go:404-408 | one pass in any order finds the greatest slot |
| SessionPool.AgentSessionPool.constructor | internal/client/session_pool.go:239-244 | for any configuration an empty pool, starting up |
| SessionPool.AgentSessionPool.AcquireSession | internal/client/session_pool.go:528-548 | a stream is counted on a best healthy session, or nothing changes |
| SessionPool.AgentSessionPool.ReleaseSession | internal/client/session_pool.go:550-559 | an acquisition given back reduces the load only of the entry still registered in its slot |
| SessionPool.AgentSessionPool.RegisterSession | internal/client/session_pool.go:440-454 | a session enters its slot with no load exactly when the slot still exists |
| Controller.ConnectionsWithinBounds | internal/agent/connection_controller.go:124-136 | on every run the number of connections stays between Min and Max from start-up until everything is closed |
| Controller.IdsAreDistinct | internal/agent/connection_controller.go:323-333 | different numbers give different ids |
| Controller.AtoiOfItoa | internal/agent/connection_controller.go:323-333 | the decimal numeral denotes its number |
| Controller.ItoaLoop | internal/agent/connection_controller.go:323-333 | the digit loop computes the decimal numeral |
| Controller.StartAddsOne | internal/agent/connection_controller.go:203-217 | starting a connection below Max adds one under an id no connection has |
| Controller.ScalingIsWarranted | internal/agent/connection_controller.go:260-285 | on every run a scale-up follows two consecutive high and supported evaluations, a scale-down two consecutive low ones and the cooldown since the last scaling, and the evaluation before a scaling did not scale |
| Controller.ScalingsAreTwoApart | internal/agent/connection_controller.go:270-284 | on every run two scalings are at least two evaluations apart |
| Controller.ScaleUpIgnoresTheCooldown | internal/agent/connection_controller.go:270-277 | for every evaluation interval below half the cooldown, a run of evaluations at that interval whose second and fourth scale up within the cooldown |
| Controller.NewestIsTheVictimIff | internal/agent/connection_controller.go:288-295 | on every run the connection to scale down is the newest if and only if every other live number, filled up with zeros to the newest one's length, is at most the newest one |
| Controller.IdOrder | internal/agent/connection_controller.go:323-333 | an id sorts before a later one, as strings, if and only if its number, filled up with zeros to the later one's length, is at most the later number |
| Controller.NinthGoesBeforeTheTenth | internal/agent/connection_controller.go:288-295 | of the ninth and tenth connections the ninth is scaled down first |
| Controller.FindVictim | internal/agent/connection_controller.go:288-297 | one pass in any order finds the lexicographically greatest id |
| Controller.ConnectionController.constructor | internal/agent/connection_controller.go:81-122 | every option that is not positive becomes its default, Min becomes at least one and Max at least Min |
| Controller.ConnectionController.StartOne | internal/agent/connection_controller.go:203-217 | one more connection under the next number, unless there are Max |
| Controller.ConnectionController.Run | internal/agent/connection_controller.go:124-136 | start-up makes Min connections, unless already closed |
| Controller.ConnectionController.Summarise | internal/agent/connection_controller.go:243-259 | one pass over the reports decides whether some is high, some supports pooling and all are low |
| Controller.ConnectionController.Decide | internal/agent/connection_controller.go:260-284 | the streaks are advanced or reset, and scaling up wins over scaling down |
| Controller.ConnectionController.Carry | internal/agent/connection_controller.go:270-304 | a scaling starts both streaks afresh and records its time, and a scale-down drops the victim and its report |
| Controller.ConnectionController.EvaluateLoad | internal/agent/connection_controller.go:237-286 | one evaluation is exactly one step of the machine, with the greatest id as victim |
| Echo.InFlightWithinBudget | internal/agent/icmp_echo.go:196-216 | on every run the echoes in flight stay within the budget |
| Echo.DeliveryNeverBlocks | internal/agent/icmp_echo.go:345-350 | on every run the channel the read loop is about to fill is empty and never was filled |
| Echo.AnswerIsOwn | internal/agent/icmp_echo.go:316-350 | on every run a send gets at most one reply, and an answer it returns has its own identifier, sequence and data |
| Echo.ReleaseIsOwn | internal/agent/icmp_echo.go:368-376 | while the counter advanced fewer than 65536 times since a send took its sequence, releasing that sequence affects no other send |
| Echo.ReleaseCanHitAnother | internal/agent/icmp_echo.go:368-387 | a run on which, after exactly 65536 advances, a waiting send's sequence is another's |
| Echo.BusyIsFirstFree | internal/agent/icmp_echo.go:378-387 | the allocator passes over busy sequences only, stops at the first free one, and gives up only when all are busy |
| Echo.AllocationSucceedsUnderBudget | internal/agent/icmp_echo.go:378-387 | with fewer than 65536 pending the allocator succeeds |
| Echo.Echoer.constructor | internal/agent/icmp_echo.go:147-157 | an empty engine whose first sequence is one, with a budget of 64 unless a positive one is given |
| Echo.Echoer.AllocateSequence | internal/agent/icmp_echo.go:378-387 | the wrapping loop returns the first free sequence from the counter on, and leaves the counter after it |
| Echo.Echoer.Register | internal/agent/icmp_echo.go:187-216 | one step of the machine: an echo is registered under a sequence nobody holds, and refused only when closed, over budget or with every sequence taken |
| Echo.Echoer.HandleDatagram | internal/agent/icmp_echo.go:330-345 | one step of the machine: a datagram answers the association of its sequence only if it carries that association's data |
| Echo.Echoer.DeliverReply | internal/agent/icmp_echo.go:347-350 | one step of the machine: the reply goes into its association's empty one-slot channel |
| Echo.Echoer.Release | internal/agent/icmp_echo.go:368-376 | drops the association of the sequence and says whether there was one |
| Echo.Echoer.TimeOut | internal/agent/icmp_echo.go:236-247 | one step of the machine: a timer that finds the association is a timeout, and otherwise a reply already in the channel wins |
| UdpTable.TableIsBounded | internal/client/udp_assoc.go:147-166 | on every run the table keeps to its limit and each entry is its own source's open stream |
| UdpTable.EveryStreamAccounted | internal/client/udp_assoc.go:117-170 | on every run each opened stream is held by the handler that opened it, in the table, about to be closed, or closed |
| UdpTable.ClosedMeansAllClosed | internal/client/udp_assoc.go:254-267 | once the table is closed and every step in progress has finished, every stream ever opened is closed |
| UdpTable.ClosedStaysEmpty | internal/client/udp_assoc.go:138-146 | after the close the table is empty on every continuation |
| UdpTable.LeavesOnlyForCause | internal/client/udp_assoc.go:137-267 | on every run a stream that is neither with its handler nor in the table was turned away by that handler, for one of the three reasons of the source, and never was in the table; or came once, stayed, and left once, when its own reader failed, it was idle, the table closed, or it was evicted for another stream while least recently used and strictly older than some entry |
| UdpTable.LeastRecentlyUsed | internal/client/udp_assoc.go:196-210 | one pass in any order finds an oldest entry, or all entries are equally recent |
| UdpTable.ExpireIdle | internal/client/udp_assoc.go:236-253 | one pass in any order removes exactly the idle entries, hands on their streams, and counts them |
| UdpTable.UdpAssociationManager.constructor | internal/client/udp_assoc.go:71-88 | limits that are not positive become the defaults |
| UdpTable.UdpAssociationManager.InsertFresh | internal/client/udp_assoc.go:137-175 | a freshly opened stream is inserted, after an eviction if the table is full, or is handed on to be closed |
| UdpTable.UdpAssociationManager.ExpireAt | internal/client/udp_assoc.go:236-253 | expiry is exactly one step of the machine |
| ValidationCache.AnswersAreTheRemotes | internal/client/remote_validation.go:101-171 | on every run an answer for a key is that of one exchange about that key, and the caller's lookup found what that needs: a cached one that finished no longer ago than its polarity's time to live, nothing in flight and the exchange its own, or the exchange in flight; or it is the refusal of a caller that gave up on one in flight |
| ValidationCache.SingleFlight | internal/client/remote_validation.go:125-141 | on every run, before the cache closes, no key has two exchanges in flight |
| ValidationCache.SecondFlightAfterClose | internal/client/remote_validation_cache.go:121-127 | a run on which closing lets a second exchange start beside the first |
| ValidationCache.EntriesBounded | internal/client/remote_validation_cache.go:88-98 | on every run the table keeps to its maximum |
| ValidationCache.FindOldest | internal/client/remote_validation_cache.go:100-111 | one pass in any order finds a least recently accessed entry, unless the table is empty |
| ValidationCache.RemoteValidationCache.constructor | internal/client/remote_validation.go:54-75 | an empty open cache, with 15 s, 2 s and 10000 for limits that are not positive |
| ValidationCache.RemoteValidationCache.Lookup | internal/client/remote_validation_cache.go:72-86 | a hit exactly when the entry has not expired, which makes it most recently accessed, and an expired entry is dropped |
| ValidationCache.RemoteValidationCache.BeginValidation | internal/client/remote_validation.go:125-143 | one step of the machine: answer from the cache, else join the exchange in flight, else list and lead a new one |
| ValidationCache.RemoteValidationCache.Store | internal/client/remote_validation_cache.go:88-98 | a full table first gives up a least recently accessed entry, even when the key is already present |
| ValidationCache.RemoteValidationCache.StoreAnswer | internal/client/remote_validation.go:173-179 | one step of the machine: the answer is stored for its polarity's time to live, after an eviction that the machine allows |
| ValidationCache.RemoteValidationCache.UnlistExchange | internal/client/remote_validation.go:180-182 | one step of the machine: whatever is listed under the exchange's key leaves the in-flight table |
| FrameCodec.DecodesExactlyTheEncodings | internal/protocol/codec.go:76-114 | the decoder delivers a frame and a rest, if and only if the input is that valid, in-limit frame's encoding followed by that rest |
| FrameCodec.ListRoundTrip | internal/protocol/codec.go:20-64 | any list of sendable frames comes back unchanged whatever follows it |
| FrameCodec.WholeStreamRoundTrip | internal/protocol/codec.go:76-114 | decoding the produced bytes yields exactly the list, consumes exactly those bytes and then sees a clean end |
| FrameCodec.CutStream | internal/protocol/codec.go:84-110 | a stream cut anywhere yields exactly the frames that arrived whole and then an end of input, which reads as a clean end if and only if the cut is at a frame boundary or right behind the header of the cut frame |
| FrameCodec.Writer.WriteFull | internal/protocol/codec.go:50-64 | only prefixes are written, success means everything was, and a writer that takes positive portions without error always succeeds |
| FrameCodec.Put | internal/protocol/codec.go:36-39 | a number is stored big-endian in place and nothing else is touched |
| FrameCodec.Encoder.constructor | internal/protocol/codec.go:18-18 | the default limit is the protocol's |
| FrameCodec.Encoder.FillHeader | internal/protocol/codec.go:34-39 | the buffer filled field by field is the 16-byte header |
| FrameCodec.Encoder.WriteFrame | internal/protocol/codec.go:20-46 | an unsendable frame writes nothing, a failure leaves a prefix of the encoding, and success the whole of it |
| FrameCodec.Encoder.WriteFrames | internal/protocol/codec.go:20-46 | frames written in turn over any benign writer put exactly their encodings on the wire |
| FrameCodec.Decoder.constructor | internal/protocol/codec.go:74-74 | the default limit is the protocol's |
| FrameCodec.Decoder.ReadFull | internal/protocol/codec.go:85-87 | a buffer is filled exactly, or everything left is consumed and the error says whether anything was |
| FrameCodec.Decoder.ReadFrame | internal/protocol/codec.go:76-114 | the reader's checks in the source's order give the reference decoding and leave the reference rest |
| FrameCodec.Decoder.ReadFrames | internal/protocol/codec.go:76-114 | reading to the first error gives the reference transcript |
| ExecRequest.ParsePrefixStable | internal/protocol/exec.go:78-97 | once the parser has an answer no further bytes change it |
| ExecRequest.ParseOfEncode | internal/protocol/exec.go:59-97 | an encoded header is recognised in front of any bytes, and every proper prefix of it is still short |
| ExecRequest.RequestsArePrefixFree | internal/agent/exec_stream.go:46-66 | no request is a proper prefix of another |
| ExecRequest.StartsIffARequestEndsAtAChunk | internal/agent/exec_stream.go:39-75 | for every sequence of chunks a run has started if and only if some leading chunks make up a request, and it is then that request's run and the only one |
| ExecRequest.FragmentationInvariance | internal/agent/exec_stream.go:39-75 | every split of a header and its in-limit script into non-empty chunks starts the run once, on the last chunk, with that script and timeout, after accepting every chunk |
| ExecRequest.ExecStream.constructor | internal/agent/exec_stream.go:32-35 | a stream that has received nothing |
| ExecRequest.ExecStream.Write | internal/agent/exec_stream.go:39-75 | one write has the specified effect and error, and counts all its bytes or none |
| ExecRequest.ExecStream.WriteAll | internal/agent/exec_stream.go:39-75 | a sequence of writes leaves the specified request state |
| ExecOutput.RecordsDecodeExactly | internal/protocol/exec.go:101-129 | the reader delivers a record and a rest, if and only if the input is that fitting record's encoding followed by that rest |
| ExecOutput.RecordsRoundTrip | internal/protocol/exec.go:101-129 | any fitting records come back unchanged, and then a clean end |
| ExecOutput.ChunksKeepTheWrite | internal/agent/exec_stream.go:125-137 | chunking changes neither bytes nor kind, and every record is non-empty and fits |
| ExecOutput.OutputRoundTrip | internal/agent/exec_run.go:214-245 | for every interleaving of stdout and stderr writes, decoding the emitted records gives exactly the first budget bytes in write order, each with its own kind |
| ExecOutput.TruncatedIff | internal/agent/exec_run.go:220-239 | a run is marked truncated if and only if output exceeded the budget or some write began when it was spent |
| ExecOutput.TruncatedMeansLost | internal/agent/exec_run.go:220-245 | for non-empty writes truncated means exactly that output was lost |
| ExecOutput.Pipe.WriteRecord | internal/protocol/exec.go:101-111 | a record goes out whole in one write or not at all, and a payload too long is refused before anything is written |
| ExecOutput.Pipe.WriteChunked | internal/agent/exec_stream.go:125-137 | the write's records go out in order up to the first failure, and the returned count is zero |
| ExecOutput.OutputLimit.constructor | internal/agent/exec_run.go:122-124 | the whole budget remains and nothing was dropped |
| ExecOutput.OutputLimit.Write | internal/agent/exec_run.go:220-239 | the kept part is passed on and the budget charged as specified, a success claims every byte, and a failure claims none but charges all the same |
| ExecOutput.OutputLimit.WriteAll | internal/agent/exec_run.go:220-239 | a whole run's writes leave the specified bytes on the wire |
| Login.EverySessionIsBacked | internal/auth/login_service.go:240-333 | over every interleaving a minted session rests on settings that required no second factor, on a device of the same user with the bypass allowed, or on a login challenge, an active user, a confirmed enrolment, a spent factor and the consumption of the challenge, and each of these was read or written on that run, in this order |
| Login.NothingBacksTwoSessions | internal/auth/mfa_service.go:319-405 | over every interleaving no challenge, no step charged to an enrolment row and no recovery code backs two sessions |
| Login.ChargedElsewhereIffReenrolled | internal/auth/mfa_service.go:319-367 | over every interleaving a session's TOTP step was charged to another enrolment row than its code was checked against, if and only if the user enrolled anew between the two reads |
| Login.SharedCodeNeedsReenrolment | internal/auth/mfa_service.go:319-367 | over every interleaving two sessions rest on one step of one checked enrolment only if a user enrolled anew while one of them was being verified |
| Login.ReenrolmentCanShareACode | internal/auth/mfa_service.go:337-345 | a run on which that happens |
| Login.RowChangesOnlyByEnrolment | internal/storage/identity_repository.go:516-542 | over every interleaving a user's enrolment row changes exactly when the user enrols anew, and is then a new one |
| Login.GuessesBounded | internal/auth/login_service.go:244-270 | over every interleaving the codes checked for a login challenge are fewer than its budget of wrong codes plus the verifications under way in the last state in which it was unconsumed |
| Login.GuessesCanExceedTheBudget | internal/auth/login_service.go:244-270 | for every number, whatever the budget, a run that checks that many codes for one challenge |
| Login.PolicyIsMonotone | internal/auth/policy.go:30-51 | a stricter mode, an account flag or an enrolment never lifts a requirement |
| Login.IdentityStore.MarkUsed | internal/storage/identity_repository.go:554-564 | a step is accepted exactly when later than the row's last one, which it then becomes |
| Login.IdentityStore.ConsumeCode | internal/storage/identity_repository.go:627-634 | a recovery code of the user is accepted exactly once |
| Login.IdentityStore.ConsumeChallenge | internal/storage/identity_repository.go:822-829 | a challenge is consumed exactly once |
| Login.IdentityStore.FailChallenge | internal/storage/identity_repository.go:831-852 | a wrong guess costs an attempt, the last one burns the challenge, and a missing or burnt challenge is exhausted |
| Login.IdentityStore.Load | internal/auth/login_service.go:244-247 | one step of the machine: an attempt starts exactly on an open challenge |
| Login.IdentityStore.ReadUserActive | internal/auth/login_service.go:248-251 | one step of the machine: the verification goes on exactly for an active user |
| Login.IdentityStore.ReadConfirmedRow | internal/auth/mfa_service.go:319-329 | one step of the machine: the verification goes on exactly for a confirmed enrolment, whose row it then holds |
| Login.IdentityStore.SpendTotp | internal/auth/mfa_service.go:337-358 | the machine's steps for a matching code: it is spent exactly when its step is later than the row's last one, and otherwise changes nothing |
| Login.IdentityStore.SpendRecovery | internal/auth/mfa_service.go:369-405 | the machine's steps for a recovery code: it is spent exactly when it is the user's and unused |
| Login.IdentityStore.Refuse | internal/auth/login_service.go:254-270 | one step of the machine: a wrong code costs its challenge an attempt and ends the verification |
| Login.IdentityStore.Conclude | internal/auth/login_service.go:272-291 | two steps of the machine: a spent factor becomes a session exactly when the challenge was not yet consumed |
| Login.IdentityStore.VerifyMfa | internal/auth/login_service.go:240-291 | uninterrupted, verification is the machine's run of its steps: a session means an open challenge newly consumed and a factor newly spent, and only a wrong code costs an attempt |
| Accounts.AccountsKeepCredentials | internal/auth/identity_service.go:96-336 | every sequence of operations keeps the tables consistent and every account's credentials true to its source |
| Accounts.CredentialsAfterAnyRun | internal/auth/account_service.go:64-262 | after every sequence of operations an account has a password or an identity, mixed means both, and local means a password and no identity |
| Accounts.ExternalLabelIff | internal/storage/models.go:28-31 | from tables where it is so, an external account has no password after each of a sequence of operations, if and only if none of them resets the password of an external account |
| Accounts.ResetCanFalsifyTheLabel | internal/auth/account_service.go:142-165 | a reset and an unlink that leave an external account with a password and no identity |
| Accounts.AnAdminAlwaysRemains | internal/auth/identity_service.go:311-336 | if there was an active administrator, every sequence of operations leaves one |
| Accounts.AccountStore.CountActiveAdmins | internal/storage/identity_repository.go:957-961 | counts the enabled, undeleted administrators |
| Accounts.AccountStore.ApplyAuthoritativeRole | internal/auth/identity_service.go:311-336 | an authoritative role is written, except over the last active administrator |
| Accounts.AccountStore.ProvisionFromOidc | internal/auth/identity_service.go:184-300 | an existing link wins, then a username match, then creation, and a failure changes nothing |
| Accounts.AccountStore.ProvisionFresh | internal/auth/identity_service.go:228-292 | a username match links the subject and turns a local account mixed, and otherwise an account without a password is created if allowed |
| Accounts.AccountStore.UnlinkIdentity | internal/auth/identity_service.go:96-147 | the only way in is never removed, and a mixed account left with just its password is local again |

## Left out

- Streams opened without an initial window carry no credit, and the server's relay has its own release rule; neither is modelled.
- The order in which the connection's writer schedules frames of different streams or classes: each stream's frames are assumed first in, first out.
- Delivery of all queued request bytes once the target has sent its end of stream: the reader closes the connection then, and no such property holds.
- Stopping a queue and closing its connection are two steps for the frame reader and one step for every goroutine that Close waits for.
- In-order replay of DATA that arrives before a dial completes; only its admission and the stream's ownership are modelled.
- A dispatcher without a sender, and several concurrent readers of one client stream.
- Sockets, TLS, QUIC, WebSocket handshakes, proxies and process execution: their outcomes are arbitrary events.
- JSON, base64, password hashing, TOTP arithmetic, encryption and random identifiers: oracles, or a parameter with a stated round-trip law.
- Metrics, audit rows, logging, latency percentiles, heartbeats as real time, jitter and reconnect backoff.
- Login throttling and the pending-enrolment window; password success and OIDC assertions are arbitrary events.
- Login's password and policy path is a step machine on values only; VerifyMFA is also given as a class.
- The UDP handler's early refusal when the table has no room: the model opens a stream in more cases than the code, and decides at insertion.
- The echo engine's target check and message parsing; its read loop's failure and a sender's cancellation are steps of the machine only.
- The session pool's error channel and the restart of the whole pool; a runner that ends for any reason other than scale-down is one event.
- The validation cache's key derivation, and a validator without an endpoint, which allows everything: keys are non-empty strings, one per request.
- Hard deletion of accounts: links that survive one are allowed in the starting state.
- Command line, tray, configuration loading, inventory, metadata collection, web console and documentation.
