# Verified model of palmux2's process holder and of the state machines around it

The core is `palmux ptyhost`: a detached server that owns one child process, keeps
the last bytes of its output in a ring, and serves them over a length-prefixed
protocol to a client that may go away and come back at any time. It is modelled in
layers, each proved against the one below.

* `Bytes`, `Sums`, `Options`: bytes, big-endian integers, two's complement, sums, missing values.
* `Ring`: the circular array as a class with a real array, against `history`, every
  byte ever written. `Output` is the loop that fills it, `Status` the reply that
  reads it under three separate locks.
* `Protocol`: frames on a byte stream that may break anywhere, written and read by
  imperative code, and the payload codecs.
* `Handler`: `handleConn` as its own goroutine runs it, a loop over a real ring, reader
  and connection with the deferred clean-up.
* `Delivery`: ring writes, ATTACH, the pumps, full channels, lost connections and the
  two halves of Unsubscribe, interleaved freely; one action is one lock section, one
  channel operation or one frame under `writeMu`. `DeliverySafety` holds the
  invariant, `DeliveryRuns` what a run only adds to, `DeliveryTheorems` what both mean
  for a client, `DeliveryOrder` in what order a connection carries the frames of several
  ATTACHes, `DeliveryTalk` that what a connection is given is what its client asked for, and
  `Lag` compares two runs that differ in one pump.
* `PipeClient`, `Reconnect`, `Reattach`: the client that joins frames into lines, what
  it holds after any number of connections, and the end-to-end statements that take
  these connections, each cut anywhere, from runs of the server. `Checkpoint` is what
  the client stores between them.
* `Lifecycle`: all of `Run`: the main goroutine with its select loop, `replaceConn`,
  `terminateChild` and teardown, the acceptor, the child waiter, the output pumps and
  every handler and pump of `Delivery`. An action has a control part and an effect on
  rings and connections, and that effect is an action of `Delivery`, so that every
  delivery theorem holds of the whole server. `LifecycleSafety` and `LifecycleRuns`
  hold its invariant, `Serving` what Run does until it is told to stop, `Teardown`,
  `Shutdown` and `Summons` how it stops, `FrameSizes` that live chunks always fit a frame.

Beside it stand seven smaller machines: `LoginThrottle`, `SsoCookie` (with
`TextCodecs`), `Naming`, `NotifyHub`, `Deploy`, `EnsureSession` and `Settle`.

## What is assumed

The child exits some time after it was killed; a timer runs out; an operation on a
closed connection returns. Nothing else is assumed of child, client or scheduler; a
bound on a schedule, where a theorem needs one, is among its hypotheses.
Offsets are natural numbers; a frame carries one below 2^63.
`Checkpoint` assumes that the child does not use the id of a control request twice, and
`Settle` that kicks of the rebuild unit do not overlap and that a kicked run starts within
the grace period of 30 seconds.

## Where the code and its comments differ

The model follows the code.

* `io.EOF` from `ReadFrame` does not mean a clean close: a stream cut right after the
  four length bytes reads the same (`Protocol.TornStreamReads` says exactly when).
* With a ring larger than 2^24 - 9 bytes an ATTACH is turned away as soon as more
  than that is retained (`DeliveryTheorems.EveryReplayFits`, `AttachAnswered`).
* In terminal mode, and in pipe mode after a drain time-out, a child can be reported
  dead before its output is in the ring (`Shutdown.DeadMayLag`, `DeadIsComplete`).
* `AttachResult` says that an overflow must be treated as a new session and never as a
  truncated continuation. The client only clears its stored offset and goes on with the
  clamped replay, whose first line is cut short unless the gap ends at a line end
  (`Reconnect.GapCutsLine`); `Reattach.LinesHandledOnce` covers these runs.
* The stored offset is said to be the largest one up to which everything is processed.
  It is 0 while no line of a connection has been settled, so that a client restarted in
  that moment reads lines again that were settled long ago, and asks for a permission
  again that was given (`Checkpoint.StoredOffset`, `AnsweredStaysAnswered`, `AskedAgain`).
* The deploy controller is said to fall back to "needs restart" without an applier;
  the code reports a hot change as applied and moves the baseline although nobody was
  told (`Deploy.UntoldWithoutApplier` says exactly when). A change of the agents
  section alone is "no changes" and is not written.
* An install that nobody polled can be marked failed by the rebuild of another app's
  uninstall (`Settle.BlamedForAnotherRun`).
* A clock that is set back lets an eleventh login attempt through
  (`LoginThrottle.ClockSetBack`; `NoEleventhIffClockNotBehind` says exactly when).

## Model

| member | source | states |
|---|---|---|
| Ring.Replay | internal/ptyhost/ring.go:137-156 | a replay is true history, ends at the newest byte and is no longer than the ring |
| Ring.ReplayLoss | internal/ptyhost/ring.go:137-156 | asked for a byte already written, a replay never begins before it, loses exactly the bytes from there to its start, and none iff that byte is not evicted |
| Ring.ReplayCases | internal/ptyhost/ring.go:137-156 | for every offset: all that is retained when it is older than that, the rest of the history when it is not, and nothing, with the newest byte as start, when it is at or beyond that |
| Ring.HoldsTail | internal/ptyhost/ring.go:80-84 | a write as long as the ring leaves its last bytes, laid out from position 0 |
| Ring.HoldsWritten | internal/ptyhost/ring.go:85-98 | a shorter write, wrapped at the end, keeps the array a window on the longer history |
| Ring.Ring.constructor | internal/ptyhost/ring.go:53-61 | an empty ring of the given size, or of 1 MiB when that is not positive |
| Ring.Ring.CopyWrapped | internal/ptyhost/ring.go:86-92 | the two copies put the bytes from head on, around the end, and touch nothing else |
| Ring.Ring.Store | internal/ptyhost/ring.go:77-99 | head, used and total follow the history for writes of every size |
| Ring.Ring.Write | internal/ptyhost/ring.go:69-114 | history grows by the bytes written; each subscriber is offered the whole chunk at its true offset and loses it exactly when 256 chunks are waiting; an empty write does nothing |
| Ring.Ring.Snapshot | internal/ptyhost/ring.go:118-132 | the retained bytes, oldest first |
| Ring.Ring.ReadFrom | internal/ptyhost/ring.go:137-171 | the replay of the history for every offset, negative, evicted or future |
| Ring.Ring.SnapshotAndSubscribe | internal/ptyhost/ring.go:179-189 | replay and registration at one instant, with an empty open channel |
| Ring.Ring.Unsubscribe | internal/ptyhost/ring.go:194-199 | leaves the map and closes Done, which was not closed before |
| Ring.Ring.Len | internal/ptyhost/ring.go:202-206 | min(total, capacity) |
| Ring.Ring.TotalWritten | internal/ptyhost/ring.go:210-214 | the length of the history |
| Ring.Ring.OldestOffset | internal/ptyhost/ring.go:218-222 | the offset of the oldest retained byte |
| Output.PumpToRing | internal/ptyhost/server.go:473-489 | the ring gets all that was read up to the first failing read, that read's own bytes included, and every subscriber is offered it in that order |
| Output.PumpedFollows | internal/ptyhost/server.go:478-487 | each chunk is non-empty, no larger than the read buffer of 32 KiB, and begins where the bytes read before it end |
| Output.ChunksAreReads | internal/ptyhost/server.go:478-487 | one chunk per non-empty read, with just its bytes, up to the first read that fails and including it |
| Output.RoomForAll | internal/ptyhost/ring.go:104-110 | while nobody reads it a channel takes the chunks offered first, in order, until 256 are waiting, and loses the others |
| Status.StatusPayload | internal/ptyhost/server.go:867-884 | the reply when the child's output comes in between its three ring locks |
| Status.TornIsConsistent | internal/ptyhost/server.go:867-884 | head <= total and bytes <= total - head in every reply, equal iff no write that matters came in between, with the true length in the middle |
| Protocol.WriteFrame | internal/ptyhost/protocol.go:101-117 | refuses exactly the payloads over the limit, writes the frame's bytes as far as the connection takes them, and keeps the stream a run of whole frames with at most one torn one behind |
| Protocol.Reader.ReadFrame | internal/ptyhost/protocol.go:122-136 | two ReadFulls do what ParseFrame says, errors included |
| Protocol.ParseIsWire | internal/ptyhost/protocol.go:122-136 | only what WriteFrame writes is accepted |
| Protocol.WireLayout | internal/ptyhost/protocol.go:99-117 | a frame on the wire: length of type and payload in four bytes, most significant first, the type byte, the payload |
| Protocol.LengthRefused | internal/ptyhost/protocol.go:122-130 | a length is called invalid iff it is zero or more than 16 MiB, whatever follows it |
| Protocol.ReadBack | internal/ptyhost/protocol.go:101-136 | reading back any run of frames gives exactly these frames |
| Protocol.ReadIsWritten | internal/ptyhost/protocol.go:122-136 | whatever frames come out of any bytes, the bytes begin with these frames as written |
| Protocol.TornStreamReads | internal/ptyhost/protocol.go:119-136 | a stream broken inside a frame reads as the whole frames and an error, which is io.EOF iff the break is at 0 or 4 bytes |
| Protocol.CutStreamReadsPrefix | internal/ptyhost/protocol.go:119-136 | a stream cut anywhere yields a prefix of the frames, and all of them with a clean EOF if it is not cut |
| Protocol.ConnReadsPrefix | internal/ptyhost/server.go:682-687 | what a peer reads off a connection at any time is a prefix of the frames whose write succeeded, in the order writeMu gave them |
| Protocol.AttachCodec | internal/ptyhost/protocol.go:161-236 | ATTACH and ACK payloads are a bijection between int64 and 8 bytes; other lengths are refused |
| Protocol.DataCodec | internal/ptyhost/protocol.go:177-194 | DATA payloads are a bijection between offset with bytes and payloads of at least 8 bytes |
| Protocol.ResizeCodec | internal/ptyhost/protocol.go:207-221 | RESIZE payloads are a bijection between pairs of uint16 and 4 bytes |
| Protocol.OffsetLayout | internal/ptyhost/protocol.go:161-182 | an offset is its two's complement, most significant byte first |
| Protocol.ResizeLayout | internal/ptyhost/protocol.go:207-213 | columns before rows, two bytes each, most significant first |
| Protocol.DataFrameSendable | internal/ptyhost/protocol.go:92-104 | a DATA frame is accepted iff it carries at most 2^24 - 9 bytes |
| Handler.Slot.Unsubscribe | internal/ptyhost/server.go:691-698 | the handler's subscription leaves the map, and only it, and its Done is closed |
| Handler.Slot.Attach | internal/ptyhost/server.go:757-766 | the old subscription is closed, a new open one is in the map with an empty channel, and the replay of the history from the offset asked for is sent iff it fits a frame and the connection |
| Handler.Handler.Attach | internal/ptyhost/server.go:752-784 | a served ATTACH puts the stdout replay and, in pipe mode, the whole stderr replay on the connection, in this order; otherwise the handler leaves |
| Handler.Handler.Dispatch | internal/ptyhost/server.go:748-815 | what one frame comes to: the answer as far as it fits, the input passed on, the size a RESIZE asks the terminal for, and whether the loop ends |
| Handler.DispatchMeans | internal/ptyhost/server.go:748-815 | a HELLO and an empty STATUS are answered iff the reply fits, a served ATTACH with all its replays, nothing else is; only a SHUTDOWN or an ATTACH that cannot be answered ends the loop |
| Handler.AttachWants | internal/ptyhost/server.go:752-784 | an ATTACH asks for the retained bytes from its offset, moved up to the oldest or down to the newest byte, as DATA, and in pipe mode for all of stderr as STDERR_DATA |
| Handler.RefusedMeans | internal/ptyhost/server.go:761-783 | an ATTACH cannot be answered iff a replay has more than 2^24 - 9 bytes or finds less room than its bytes and 13 more |
| Handler.Handler.HandleConn | internal/ptyhost/server.go:679-817 | whatever bytes the client sends: every frame up to the first error is handled, unless one of them ends the loop, which is then the last; what is said is what these frames ask for as far as it fits; shutdown iff the last is a SHUTDOWN; the child gets the input frames in order; both maps end as they were |
| DeliverySafety.ApplyKeeps | internal/ptyhost/server.go:689-784 | every lock section, channel operation and frame keeps the invariant: logs true, ascending and gapless until something is lost; channel and pump hold what is not sent yet; slots and ring.subs agree |
| DeliverySafety.ReachableInv | internal/ptyhost/server.go:689-784 | the invariant in every reachable state of every interleaving |
| DeliveryTheorems.FramesAreTrue | internal/ptyhost/server.go:700-766 | every DATA and STDERR_DATA frame ever sent carries history at its offset and fits a frame |
| DeliveryTheorems.OneAttachAscends | internal/ptyhost/server.go:700-766 | on a connection that attached once: the replay first, then chunks at strictly increasing offsets, none overlapping an earlier one |
| DeliveryTheorems.OneAttachIsExact | internal/ptyhost/server.go:700-766 | until its channel overflows, replay and live frames join to exactly history[start..k] |
| DeliveryTheorems.CaughtUpIffNothingLost | internal/ptyhost/ring.go:104-110 | a subscription with nothing left to send has delivered everything iff its channel never overflowed, and is short by exactly the lost bytes |
| DeliveryTheorems.SubscriptionsAreOwned | internal/ptyhost/server.go:689-698 | ring.subs is what the live handlers name, at most one per handler and stream |
| DeliveryTheorems.UnsubscribedExactlyOnce | internal/ptyhost/server.go:691-698 | Done is never closed twice, and exactly once when the handler is gone |
| DeliveryRuns.ReachableTickets | internal/ptyhost/ring.go:179-189 | in every reachable state each replay is what the ring held at the moment of the ATTACH for the offset it asked for, and every handler that ever attached owns a subscription |
| Lag.LagIsPrivate | internal/ptyhost/ring.go:101-111 | two runs that differ only in when, and whether, the pump of one subscription acts end with the same rings, maps, other subscriptions and frames on all other connections |
| DeliveryOrder.FramesAreMerged | internal/ptyhost/server.go:700-784 | however often a connection attached: each ring frame was sent for one of its own subscriptions to that stream, and those of one subscription, by themselves, are its replay and the chunks it emitted, in order |
| DeliveryOrder.EachAttachAscends | internal/ptyhost/server.go:700-784 | so the frames of every single ATTACH ascend and never overlap |
| DeliveryOrder.EachAttachIsExact | internal/ptyhost/server.go:700-784 | and without overflow they join to exactly history[start..k] |
| DeliveryTheorems.AttachAnswered | internal/ptyhost/server.go:752-766 | an ATTACH on an open connection is answered by its replay iff the replay fits a frame; otherwise the handler leaves without having written |
| DeliveryTheorems.EveryReplayFits | internal/ptyhost/server.go:761-764 | no ATTACH is ever turned away iff the ring is no larger than 2^24 - 9 bytes |
| DeliveryTalk.AttachesAreServed | internal/ptyhost/server.go:752-784 | in every run: a handler waiting for a message has taken one stdout subscription per ATTACH it was sent, for the offset asked for, and in pipe mode one per ATTACH to all of stderr; the latest of each is open, its pump runs, and its replay, what the ring held then, is on the connection, stdout before stderr |
| DeliveryTalk.NoStderrOnTerminal | internal/ptyhost/server.go:768-784 | in terminal mode no stderr subscription exists in any reachable state |
| DeliveryTalk.LeavesForAReason | internal/ptyhost/server.go:743-817 | a handler told to stop by a SHUTDOWN or a failed read leaves, and else only one with a replay of its own that was not sent, on a connection that is down or because it is too large for a frame |
| DeliveryTalk.RequestsAreAnswered | internal/ptyhost/server.go:748-815 | while the connection is up each HELLO and STATUS request is answered once, and never twice |
| PipeClient.CutLinesMeaning | internal/tab/claudeagent/ptyclient.go:234-253 | lines and rest are the bytes again, hold no newline, and each line's end offset is where its bytes stop |
| PipeClient.CutConcat | internal/tab/claudeagent/ptyclient.go:204-207 | cutting frame by frame gives the lines of the whole |
| PipeClient.ResumeAtLine | internal/tab/claudeagent/ptyclient.go:243-248 | resuming at a line's end offset gives exactly the lines after it |
| PipeClient.PipeClient.DrainLines | internal/tab/claudeagent/ptyclient.go:234-253 | hands every complete line in the buffer to the handler, in order, until it refuses one |
| PipeClient.PipeClient.OnData | internal/tab/claudeagent/ptyclient.go:173-207 | refuses exactly the frames that do not continue where the bytes so far end, the first one excepted |
| PipeClient.AcceptedIsJoined | internal/tab/claudeagent/ptyclient.go:173-207 | the accepted bytes are all those of the frames up to the first that does not continue where the one before it ends |
| PipeClient.PipeClient.Run | internal/tab/claudeagent/ptyclient.go:148-228 | the lines handled are the lines of the accepted bytes, all of them unless the handler gave up; the outcome says whether the frames had a gap |
| Reconnect.ReceivedIsSent | internal/ptyhost/server.go:711-742 | what a client decodes from the frames is what the pumps sent, per stream |
| Reconnect.SentIsSendable | internal/ptyhost/server.go:761-783 | every frame a reachable server sends passes WriteFrame's limit |
| Reconnect.ClientSeesTruth | internal/ptyhost/server.go:679-784 | cut the byte stream of any reachable connection anywhere: what is decoded is a prefix of what was sent, and true |
| Reconnect.HeldIsTrueOnce | internal/ptyhost/ring.go:137-156 | over any number of connections, gaps and evictions a client that resumes after its last contiguous byte holds true bytes, none twice, misses exactly what the replays skipped, and holds the history if they skipped nothing |
| Reconnect.OneSession | internal/tab/claudeagent/ptyclient.go:148-228 | wherever its replay begins, a session handles the next lines from there and leaves exactly the others to its successor |
| Reconnect.GapCutsLine | internal/tab/claudeagent/ptyclient.go:173-196 | when a replay begins late and a complete line follows, exactly the lines of the gap are lost iff the gap ends at a line end; otherwise the first line handled is a truncated one |
| Reconnect.LinesAcrossReconnects | internal/tab/claudeagent/ptyclient.go:148-253 | over any number of sessions, overflows included: handled and skipped bytes add up, and the lines handled are the lines of the history, each once, in order, iff no byte of a complete line was skipped |
| Reattach.ReattachLoss | internal/ptyhost/ring.go:137-189 | on any later connection of any run: the first chunk begins where the ring's clamp put the offset asked for, never before it, so that exactly the bytes between are missed, and none iff that offset was not evicted when the ATTACH was served |
| Reattach.TravelsAreVisits | internal/ptyhost/server.go:752-766 | a chain of connections on one run of the server, each asking for the byte after the last contiguous one and cut anywhere, gives visits as HeldIsTrueOnce needs them; nothing is missed iff no offset asked for was evicted |
| Reattach.ReattachingClient | internal/ptyhost/server.go:679-784 | over any run and any number of such connections the client holds true bytes, none twice, lacks exactly what the replays skipped, which is nothing iff no offset asked for was evicted, and then holds the history |
| Reattach.ServedSession | internal/tab/claudeagent/client.go:535-548 | a connection of the modelled server, which asks for the stored offset or for all there is, is a session that begins no earlier than the client stands, and exactly there iff that byte was not evicted; an overflow clears the stored offset, and the client still stands right |
| Reattach.WorksAreSessions | internal/tab/claudeagent/client.go:440-548 | a chain of connections of the line client on one run of the server, evictions included, is a chain of such sessions |
| Reattach.LinesHandledOnce | internal/tab/claudeagent/client.go:440-548 | over any run and any number of connections, evictions included: every session hands exactly the lines it did not handle over to its successor, and the lines handled are those of the child's output, each once, in order, iff no eviction hit a byte of a complete line |
| Checkpoint.Client.constructor | internal/tab/claudeagent/client.go:440-469 | a connection starts with the stored answered requests to suppress and with no offset seen |
| Checkpoint.Client.OnAttach | internal/tab/claudeagent/client.go:535-548 | an overflow clears the store |
| Checkpoint.Client.HandleLine | internal/tab/claudeagent/client.go:656-737 | a control request not yet answered becomes pending, every other line is settled |
| Checkpoint.Client.AdvanceAck | internal/tab/claudeagent/client.go:743-750 | the highest offset moves and the frontier is stored |
| Checkpoint.Client.BeginPending | internal/tab/claudeagent/client.go:754-759 | the request holds the frontier back |
| Checkpoint.Client.ResolvePending | internal/tab/claudeagent/client.go:767-776 | the request is answered and no longer does |
| Checkpoint.Client.PersistSafeFrontier | internal/tab/claudeagent/client.go:792-814 | the two loops store the least of the highest offset and the pending ones, with the answered requests from there on |
| Checkpoint.StoredOffset | internal/tab/claudeagent/client.go:778-814 | for every order of lines and answers: the stored offset is where the first unsettled line begins iff a line of this connection is settled or the connection began at byte 0; otherwise it is 0 |
| Checkpoint.StoredIsWhereItStands | internal/tab/claudeagent/client.go:778-814 | and then it is the end of the settled lines, from which the next session resumes |
| Checkpoint.AnsweredStaysAnswered | internal/tab/claudeagent/client.go:656-776 | a request answered on this connection or before is known to the next one, if its line comes again, iff a line of this connection is settled or the record still knew them all |
| Checkpoint.AskedAgain | internal/tab/claudeagent/client.go:656-814 | a run over three connections in which an answered request is asked for again |
| FrameSizes.LiveFramesFit | internal/ptyhost/server.go:473-489 | whatever the ring size, no live chunk exceeds 32 KiB, and a pump on an open connection is never stopped by the size of a frame |
| FrameSizes.ReplayFramesFit | internal/ptyhost/server.go:761-764 | with a ring of at most 2^24 - 9 bytes no handler on an open connection is stopped by the size of a replay |
| LifecycleSafety.HandleCounts | internal/ptyhost/server.go:700-718 | frames received and pumps that dequeue or quit change the WaitGroup count by their Done and nothing else |
| LifecycleSafety.StepCounts | internal/ptyhost/server.go:689-784 | a handler's own step changes it by startPump's Add or its own Done |
| LifecycleSafety.EmitCounts | internal/ptyhost/server.go:711-713 | a pump whose frame cannot be written is Done |
| LifecycleRuns.ApplyKeeps | internal/ptyhost/server.go:250-383 | every action of every goroutine of Run keeps the invariant |
| LifecycleRuns.RunIsDeliveryRun | internal/ptyhost/server.go:648-672 | seen through rings and connections, a run of the server is a run of the delivery protocol |
| LifecycleRuns.ReachableDelivery | internal/ptyhost/server.go:679-784 | so every delivery theorem holds in every state of the server |
| Serving.StopsForAReason | internal/ptyhost/server.go:354-383 | Run leaves its loop iff listening failed, the context was cancelled, it took a SHUTDOWN, which a client had sent, or the linger time after the child's exit was over; only in the first three cases is the child ever killed |
| Serving.ServesTheLatest | internal/ptyhost/server.go:309-383 | until then as many connections have a handler as were taken, all that were accepted are taken but the one being handed over, only the latest is open and nobody but its handler closes it, and while accepting works the next one can come |
| Serving.GoneIsClosed | internal/ptyhost/server.go:679-698 | a handler that has left has closed its connection |
| Serving.HandlersAreFree | internal/ptyhost/server.go:743-817 | in every reachable state a live handler can read whatever its client sends next, or go on |
| Serving.PumpsAreFree | internal/ptyhost/server.go:700-742 | a pump can take the next chunk, send the one it holds, and stop when it was told to |
| Serving.OutputIsFree | internal/ptyhost/server.go:473-489 | the child's output can be read in any pieces of up to 32 KiB and stored |
| Teardown.WaitingRunsDown | internal/ptyhost/server.go:333-339 | under wg.Wait every step of Run's goroutines uses up one of finitely many, and nothing child or client do adds to them |
| Teardown.OwnerLives | internal/ptyhost/server.go:691-718 | a pump whose Done is not closed has a live handler that will close it |
| Teardown.NeverStuck | internal/ptyhost/server.go:306-339 | while Run is in wg.Wait some goroutine can take a step that needs neither child nor client |
| Teardown.TeardownCompletes | internal/ptyhost/server.go:333-339 | from every reachable state in wg.Wait: at most Rank further steps, and one is always possible until Run has returned |
| Teardown.ReturnsClean | internal/ptyhost/server.go:341-383 | when Run has returned the child was reaped by exactly one cmd.Wait, childExited closed once, stopAccept once (never after a failed listen), every connection closed, every goroutine of the WaitGroup finished |
| Shutdown.OnTheWay | internal/ptyhost/server.go:341-383 | between the decision to stop and wg.Wait the owed step is always possible, and every step advances or leaves it owed |
| Shutdown.ShutdownReachesWait | internal/ptyhost/server.go:564-584 | on every schedule that passes an owed step over at most `patience` times before taking it Run reaches wg.Wait, within a bound |
| Summons.StaysCalled | internal/ptyhost/server.go:354-383 | a SHUTDOWN received and an announced exit stay until main acts on them: every step leaves main in its loop with the call still there, or on its way |
| Summons.CanAnswer | internal/ptyhost/server.go:354-383 | and main always has a step towards acting on it, in listening, the select loop and replaceConn |
| Summons.CallReachesWait | internal/ptyhost/server.go:354-383 | from a received SHUTDOWN or the child's exit every schedule that lets main step within `patience`, passes over the arm that leads to the end at most `turns` times and is fair afterwards brings Run to wg.Wait, within a bound, whatever connections come in |
| Shutdown.RaisedFromZero | internal/ptyhost/server.go:648-661 | the WaitGroup count is the number of unfinished goroutines; only main itself raises it from zero, in listening or replaceConn, and never once it waits |
| Shutdown.ClosedOnce | internal/ptyhost/server.go:497-555 | at most one cmd.Wait and one close of each channel; not alive means reaped; teardown only after childExited |
| Shutdown.DeadMeansComplete | internal/ptyhost/server.go:497-555 | in pipe mode without a drain time-out, once alive is false both rings have had all the child wrote and never change again |
| Shutdown.DeadMayLag | internal/ptyhost/server.go:497-555 | neither condition can go: a run for each mode that reports a dead child with output missing from the ring |
| Shutdown.DeadIsComplete | internal/ptyhost/server.go:497-555 | every reachable state of a mode and drain flag that reports a dead child has complete rings iff the mode is pipe and the drain did not time out |
| LoginThrottle.Throttle.RateLimitOK | internal/auth/sso.go:233-249 | stores the pruned list of all calls so far and answers as the list says |
| LoginThrottle.PruningIsSafe | internal/auth/sso.go:236-248 | pruning forgets nothing a later cut would still count |
| LoginThrottle.ThrottleRule | internal/auth/sso.go:233-249 | accepted iff fewer than 10 attempts of that address were accepted in the last 60 seconds, ends included, if the address was not seen at a later time |
| LoginThrottle.AtMostTenPerWindow | internal/auth/sso.go:35-41 | with a clock that never goes back, no closed 60-second window of any run has more than 10 accepted attempts of an address |
| LoginThrottle.StoredIsShort | internal/auth/sso.go:243-248 | the stored list never exceeds 10, whatever the clock does |
| LoginThrottle.RejectionHasNoEffect | internal/auth/sso.go:243-246 | a rejected attempt changes no later answer |
| LoginThrottle.RuleIffClockNotBehind | internal/auth/sso.go:233-249 | the rule holds of every history in which the address was last seen at some time iff the clock is not behind that time |
| LoginThrottle.NoEleventhIffClockNotBehind | internal/auth/sso.go:233-249 | for every history in which the address was last seen at some time an eleventh attempt within a window is refused iff the clock is not behind that time |
| LoginThrottle.ClockSetBack | internal/auth/sso.go:236-242 | for every clock that is behind: a history after which an eleventh is let through |
| TextCodecs.Base64RoundTrip | internal/auth/sso.go:103-113 | unpadded base64url (RFC 4648, section 5) decodes what it encoded |
| TextCodecs.HexRoundTrip | internal/auth/sso.go:103-117 | base16 (RFC 4648, section 8) decodes what it encoded, and prints no dot |
| TextCodecs.IntRoundTrip | internal/auth/sso.go:100-131 | every int64 reads back from its decimal form, which has no bar |
| TextCodecs.SplitJoins | internal/auth/sso.go:124-127 | the fields hold no separator and join to the text |
| SsoCookie.CookieRoundTrip | internal/auth/sso.go:94-133 | parseValue of signValue is the expiry and flag, for every int64 and every keyed hash |
| SsoCookie.AcceptedExactly | internal/auth/sso.go:106-133 | accepted iff the value carries a payload with its true signature that says this expiry and flag, through the lenient decoders |
| SsoCookie.IssuedIsValidUntilExpiry | internal/auth/sso.go:154-173 | an issued cookie verifies, with its flag, for 365 days when it is to be remembered and 30 otherwise, to the second |
| SsoCookie.NotOnlyWhatWasSigned | internal/auth/sso.go:106-117 | the signature in upper case is accepted too, and that is another value unless the signature has no digit above nine |
| SsoCookie.LineEndsAreSkipped | internal/auth/sso.go:106-117 | so is the value with a line end anywhere in front of its dot |
| Naming.Configured | internal/domain/naming.go:37-46 | an empty prefix becomes the default; any other is kept, with one underscore added iff it has none at its end |
| Naming.SessionRoundTrip | internal/domain/naming.go:57-96 | a session name reads back iff the repo id has "--" and no underscore, the branch id is not empty, and underscore plus branch id does not contain "__grp_" |
| Naming.GroupRoundTrip | internal/domain/naming.go:73-113 | so does a group session's, for every connection id, iff moreover underscore plus branch id does not end in "__grp" |
| Naming.PeersAreDisjoint | internal/domain/naming.go:73-108 | instances with prefixes P and P+w claim no session in common if the first token of w has no "--" |
| Naming.PeersClash | internal/domain/naming.go:73-108 | there is a session both claim iff what precedes the first "__grp_" in w reads as a repo and a branch id or, when w has none, its first token has "--" |
| Naming.WindowRoundTrip | internal/domain/naming.go:117-136 | a window name reads back iff its tab type is not empty and has no colon |
| Naming.WindowPrintsBack | internal/domain/naming.go:117-136 | what was read prints back to the same window name |
| Naming.CandidatesDiffer | internal/domain/naming.go:140-149 | the candidate names are all different |
| Naming.CandidateText | internal/domain/naming.go:140-149 | the first candidate is palmux:bash:bash, the others have their number behind it |
| Naming.NextBashWindowName | internal/domain/naming.go:140-152 | the first free candidate, or the overflow name when all are taken; free whenever there are fewer than 999999 windows |
| NotifyHub.EntriesAreLogTail | internal/notify/hub.go:226-229 | a branch shows the last fifty of all entries it ever had |
| NotifyHub.HubInvariant | internal/notify/hub.go:208-229 | after any run at most 50 entries, at most one open per non-empty request id |
| NotifyHub.ResolvedIsFinal | internal/notify/hub.go:266-285 | a resolved or evicted entry never changes again |
| NotifyHub.UnreadCountsArrivals | internal/notify/hub.go:226-230 | the unread count is the number of entries appended since the last Clear |
| NotifyHub.SummaryIsLatest | internal/notify/hub.go:213-233 | the Last fields describe the latest notification, refreshed or appended |
| NotifyHub.ResolveSettles | internal/notify/hub.go:266-285 | after a resolve the entries that waited under the id are resolved and have no actions, at most one of them changed, all else is as before, and nothing open answers to the id |
| NotifyHub.Record | internal/notify/hub.go:208-233 | refreshes the open entry of the same request in place, or appends and evicts |
| NotifyHub.Hub.IngestInternal | internal/notify/hub.go:185-241 | the branch records the request: its Last fields, and an entry with exactly its title, message, detail, actions, ids and tab, unresolved, in place of the first that waits for the same request or else behind the others, of which 49 stay; no other branch changes, and nothing happens without both ids |
| NotifyHub.StepRecords | internal/notify/hub.go:189-235 | field by field what recording a request makes of any branch, in both cases |
| NotifyHub.AgentKind | internal/notify/hub.go:253-261 | the tab id up to its first colon |
| NotifyHub.TrimSpaceIs | internal/notify/hub.go:189-192 | a trimmed type is all of it but the spaces around it |
| NotifyHub.Hub.ClearByRequestID | internal/notify/hub.go:266-293 | the entries that wait under the id are resolved and lose their actions, all else stays, and nothing happens to an unknown branch or for an empty id |
| NotifyHub.Hub.Clear | internal/notify/hub.go:297-312 | the unread count of the branch is zero, nothing else of it and no other branch changes |
| NotifyHub.Hub.Snapshot | internal/notify/hub.go:315-322 | the state after all that happened to the branch |
| NotifyHub.Hub.Ingest | internal/notify/hub.go:130-161 | finds the branch by its trimmed ids or else by session, reports the three errors without a change, and otherwise records the hook's own fields, without detail or actions, or resolves; nothing changes when a resolve meets an unknown branch or an id is empty |
| NotifyHub.KeysDiffer | internal/notify/hub.go:201-201 | keys are distinct for repo ids without a slash |
| Deploy.DiffMaster | internal/config/classify.go:79-97 | the loop lists the fields that differ, nil and empty lists told apart |
| Deploy.DiffHas | internal/config/classify.go:41-75 | a class is among the changes iff a field of that class differs |
| Deploy.DiffLists | internal/config/classify.go:79-97 | a field is among the changes iff its values differ, said for each field |
| Deploy.ClassesByField | internal/config/classify.go:41-75 | which fields ask for a privileged step, a restart, a hot or a workspace change |
| Deploy.NoDiff | internal/config/classify.go:79-97 | there is no change iff all but the agents section is equal |
| Deploy.AgentsAreInvisible | internal/config/classify.go:79-97 | a change of the agents section alone is no change |
| Deploy.OutcomeIsVerdict | internal/deploy/controller.go:310-360 | each flag of an outcome is whether a field of its class differs; dry and real runs differ at most in the container count of the message |
| Deploy.OutcomeByField | internal/deploy/controller.go:310-360 | flags and message of an outcome in terms of the fields that differ and of the host |
| Deploy.UntoldWithoutApplier | internal/deploy/controller.go:363-390 | without an applier the components still have the baseline after an apply iff no hot field differs, and the outcome calls a hot change applied all the same |
| Deploy.LaunchDecides | internal/deploy/controller.go:310-342 | whether a restart or a privileged step is needed depends on launch and new configuration only |
| Deploy.AdvancedKeepsLaunch | internal/deploy/controller.go:381-390 | an apply leaves restart and root fields of the baseline at launch values |
| Deploy.ApplyAgain | internal/deploy/controller.go:310-342 | applying the same configuration again reports exactly what is still pending |
| Deploy.Controller.ApplyChange | internal/deploy/controller.go:363-390 | one change moves exactly its own field, tells the applier, and does nothing in a dry run |
| Deploy.Controller.ApplyAll | internal/deploy/controller.go:310-342 | the loop moves exactly the changed hot and workspace fields and notes every class |
| Deploy.Controller.SaveAndClassify | internal/deploy/controller.go:289-361 | outcome, disk, baseline and applier after a dry, failed, empty or real apply, field by field: a different domain asks for the privileged step, and so on; a pending restart is never forgotten |
| Deploy.Controller.ApplySharedDirs | internal/deploy/controller.go:187-220 | only the shared folders change, on disk, in the baseline and at the applier, or nothing at all |
| EnsureSession.Tmux.HasSession | internal/tmux/exec.go:153-169 | whether the session lives at the time of the call |
| EnsureSession.Tmux.NewSession | internal/tmux/exec.go:79-103 | a session with one window, unless it exists or tmux refuses |
| EnsureSession.Tmux.ListWindows | internal/tmux/exec.go:171-201 | the windows at the time of the call, none when no server is left |
| EnsureSession.Tmux.NewWindow | internal/tmux/exec.go:203-221 | one more window behind the others, unless the session is gone or tmux refuses |
| EnsureSession.MissingOnce | internal/store/branch.go:475-505 | the windows to add are the specs not there, each once |
| EnsureSession.SettledIsRight | internal/store/branch.go:402-505 | the target keeps the old windows in place, has every spec, adds nothing twice and is never empty |
| EnsureSession.SettledTwice | internal/store/branch.go:402-404 | a second run has nothing to add |
| EnsureSession.Store.AddWindow | internal/store/branch.go:483-503 | one window is added, or, iff the session is found gone and can be created, re-established from it; otherwise the reason is returned |
| EnsureSession.Store.AddMissing | internal/store/branch.go:479-505 | undisturbed, the loop adds exactly the missing windows |
| EnsureSession.Store.Reseed | internal/store/branch.go:506-523 | success means tmux has just said the session lives, or has just created it from the seed |
| EnsureSession.Store.EnsureSession | internal/store/branch.go:414-524 | undisturbed: the target, by one mutation per new window; whatever happens between two calls: success means tmux last said the session lives, or has just created it from the first window; if others only end the session, whenever and however often, it succeeds |
| Settle.Controller.SettlePending | internal/apps/controller.go:216-252 | a poll ends the pending install iff the unit is idle and was seen running or 30 seconds have passed since the kick, and then records an error iff the run failed; otherwise it only notes that the unit runs |
| Settle.Controller.Install | internal/apps/controller.go:311-376 | clears the app's error, and makes its install the pending one iff the host is NixOS and the kick is accepted |
| Settle.Controller.Uninstall | internal/apps/controller.go:340-346 | clears the app's error and its own pending install only |
| Settle.SettlesOnAFinishedRun | internal/apps/controller.go:216-252 | for every schedule of kicks and polls: a poll settles only when the install's own run has finished |
| Settle.SettlesExactlyWhen | internal/apps/controller.go:216-252 | an install kicked at any point of any run is pending until it is uninstalled or a poll finds the unit idle 30 seconds after the kick or after some poll saw it run; exactly such a poll settles it, its own run has finished then, and it gets an error iff the unit's last run failed |
| Settle.PendingWasKicked | internal/apps/controller.go:350-376 | every install pending in a reachable state is one that was kicked at a point of its run, with no other kicked after it |
| Settle.SettlesWithOwnResultIff | internal/apps/controller.go:216-252 | a settling poll reads the result of its own install iff since that install no start of the unit followed a rebuild or the uninstall of another app |
| Settle.SettlesWithItsOwnResult | internal/apps/controller.go:216-252 | if only installs and its own uninstall kick meanwhile, the install is marked failed iff its own run failed |
| Settle.BlamedForAnotherRun | internal/apps/controller.go:325-349 | otherwise an install that succeeded can be marked failed |

## Left out

- Server and its goroutines are a state machine on values, stepped by one lock section,
  channel operation or frame at a time, because they interleave; the update of the
  `Server` fields in place is not shown. The ring, the connection, the reader, a
  handler alone, the output pump and the client are classes and loops.
- Handler.Handler.HandleConn: runs without the other goroutines, so its rings do not grow
  and its pumps send nothing; `Delivery` has them interleaved.
- A write to an open connection whose peer does not read is one step; that it can block
  meanwhile matters only until the connection is closed.
- A read of the child's output that returns bytes and an error at once is two steps of
  `Lifecycle`; `Output.PumpToRing` has it as one.
- JSON bodies (HELLO, STATUS, SHUTDOWN, the status file) are opaque; exit codes, grace
  times and signals are not modelled.
- PTY, pipes, sockets, process groups, systemd and timers are environment steps.
- Wrap-around of the ring's int64 total after 2^63 bytes.
- The file behind the client's offset store, its generation marker and a failing write; a
  client without a store, which asks for all there is every time.
- A second ATTACH on one connection: a frame of the old pump may follow the new replay, in
  any number; only the frames of each ATTACH by themselves are in order.
- The goroutine that waits for the drain outside the WaitGroup, which may outlive Run.
- PipeClient.PipeClient.OnData: stderr chunks, the overflow verdict handed to the caller and the
  informational ACK are not part of it.
- Reattach.LinesHandledOnce: the lines of a connection are a parameter, those handled and
  settled; the client stores where they end, which it does not in the one case that
  `Checkpoint.StoredOffset` names.
- Checkpoint.StoredOffset: a connection begins at a line; one that begins in the middle of a
  line after an overflow has the rest of that line settled first.
- Settle.SettlesOnAFinishedRun: a poll is one step and its status query succeeds; a
  failing first query counts as "not running" in the code.
- Settle.Controller.Install: the app store and the drop-in file.
- EnsureSession.Store.EnsureSession: working directory, command and environment of a window.
- NotifyHub.Hub.Ingest: publishing to browsers, and that a published snapshot shares its
  list with the hub.
- Deploy.Controller.SaveAndClassify: secrets, and the overlay of the file on the view.
- The cookie attributes, the login form, bcrypt, and the return-address check.
- The event hub and the copy-event fan-out, version comparison, the HTTP handlers, the
  frontend, git, nix and incus wrappers, agent adapters, install and update scripts.
