# Verified model of the HTTP/3 transport layer

This project models, in Dafny, the stateful parts of the HTTP/3 client and server
layer: the reconnecting client sender, the body-send and body-receive protocol with its
reset-on-drop guard, the s2n send stream, the quinn acceptor, and the benchmark's worker
pool. `dafny verify dfyconfig.toml` checks all of it.

What the Rust code updates in place is a class whose methods are proved equal to a step of a
machine on values; the theorems are then about every run of that machine. Three parts are
machines on values only: `H3Client::send`, the worker of `H3Channel`, and the pool of all
benchmark workers, of which one worker with the shared counter is a class. A run is a sequence of atomic steps of all parties (callers, in-flight requests,
drivers, transports, schedulers), and a step that does not apply changes nothing, so
"for every sequence of steps" means every interleaving and every behaviour of the
environment.

| file | what it holds |
|---|---|
| `H3Errors.dfy` | h3 stream errors, their rendering, the closing classifier |
| `SenderSpec.dfy`, `RequestSender.dfy` | `RequestSender` on values and on the heap, where the closing flags are objects and identity is the generation |
| `SenderRuns.dfy`, `SenderTheorems.dfy` | all interleavings with requests and drivers; invariants and history theorems |
| `Recovery.dfy`, `BufferedChannel.dfy` | the two drivers of the sender: `H3Client::send` and the `H3Channel` worker |
| `BodySendSpec.dfy`, `BodySend.dfy` | guard, client loop, server loop, one await at a time |
| `BodyReceive.dfy`, `EndToEnd.dfy` | receive state machine; sender, wire and receiver composed |
| `Oneshot.dfy`, `RequestTask.dfy`, `RequestLife.dfy` | one request: eager poll, detached body task, and who owns the cancel sender, on values and as objects |
| `RequestWorld.dfy` | the sender's world with the body sends of all its requests |
| `S2nSendStream.dfy` | two-stage buffer refining a byte queue |
| `Recorder.dfy`, `TicketPool.dfy` | benchmark metrics, the shared-counter worker pool, one worker on the heap |
| `QuinnAcceptor.dfy` | pending handshakes and the accept loop |

## Environment

Foreign code appears only through the contract the sources rely on.

- A connect future is pending, succeeds or fails; a driver reports its end or drops its
  channel; both at any time.
- A write hands over any part of its frame before it is pending, fails or completes.
  `finish` puts FIN on an open stream exactly when it succeeds, which
  `S2nSendStream.FinishIsFin` proves for the s2n backend. A reset has no effect on a
  finished or reset stream, as h3-util/src/send_guard.rs:109 says.
- A send half that goes away while its stream is open is implicitly finished, and the peer
  sees a clean FIN: quinn's behaviour and the reason for the guard
  (h3-util/src/send_guard.rs:5-9). The server's send half is borrowed from the handler,
  which awaits the body send and goes away with it (axum-h3/src/lib.rs:168-181).
- The h3 receive half hands out the payload of DATA frames as it arrives, one trailer
  section, and end-of-stream only at FIN with nothing left; anything after a trailer
  section is an error (section 4.1 of RFC 9114). It may fail at any moment.
- s2n `poll_send` takes the whole chunk when it is ready
  (h3-util/src/s2n/s2n_quic_h3/s2n_quic.rs:388) and fails on a closed stream.

Where documentation and code differ the model follows the code:

- docs/send-stream-reset-mf3.md says that both incoming bodies stop the peer with
  H3_REQUEST_CANCELLED, while the server body uses H3_NO_ERROR.
- h3-util/src/client_body.rs:113-116 and h3-util/src/server_body.rs:109-112 say that a hard
  drop of the body-send future resets the stream. The guard is made inside the async block,
  so a future that is dropped before its first poll has none, and the peer sees FIN on an
  empty body. `BodySendSpec.FinIsWholeUnlessUnpolled` and `EndToEnd.NoTruncation` give the
  exact condition, `EndToEnd.OneByteIsTruncated` the input. Inside the crate it does
  not happen: `RequestTask.RequestNeverTruncates` proves that `send_request_inner` always
  polls, and the server's handler awaits the body send where it makes it.

## Model

| member | source | states |
|---|---|---|
| `H3Errors.ClassifierIsExact` | h3-util/src/client_conn.rs:37-40 | the Display-prefix test holds exactly for the two connection-level variants, whatever text the payload contains |
| `RequestSender.RequestSender.constructor` | h3-util/src/client_conn.rs:174-192 | a new sender is empty, with a fresh lowered flag |
| `RequestSender.RequestSender.RetireConnection` | h3-util/src/client_conn.rs:200-204 | sender and driver signal go, a newly allocated flag replaces the old one, the connect future is untouched |
| `RequestSender.RequestSender.PollReady` | h3-util/src/client_conn.rs:219-310 | equals one readiness step of the machine; both asserts hold, the connect future is never polled after it resolved, and the flag is either kept or replaced by a fresh object |
| `RequestSender.RequestSender.Call` | h3-util/src/client_conn.rs:313-384 | equals one call step; a dispatched request holds the cached connection and the current flag object |
| `SenderSpec.CallIsExact` | h3-util/src/client_conn.rs:313-384 | dispatched iff there is no deferred error, the URI is whole and builds, and a connection is cached, and then on that connection; otherwise told the first obstacle, a deferred error with its text; the cached connection stays |
| `RequestSender.ConnectFuture.Poll` | h3-util/src/client_conn.rs:276-298 | may be polled only until it resolves; success gives the connection and driver channel of that attempt |
| `RequestSender.InFlight.Head` | h3-util/src/client_conn.rs:63-73 | raises exactly the generation whose flag object it holds, and only for connection-level errors |
| `RequestSender.InFlight.EagerBody` | h3-util/src/client_conn.rs:77-105 | polls the body send once on a fresh channel: the body is as the eager poll of its source leaves it, the request fails exactly with that poll's error, no flag is touched, and the channel stays open exactly if the request goes on |
| `RequestSender.InFlight.Response` | h3-util/src/client_conn.rs:109-123 | an error while waiting for the response raises exactly the generation it holds, only if connection-level, and closes the cancel channel; a response takes the sender with it, unclosed |
| `RequestSender.InFlight.Drop` | h3-util/src/client_conn.rs:63-109 | a future dropped at either of its awaits closes the cancel channel if it holds the sender |
| `SenderTheorems.FieldsStayCoupled` | h3-util/src/client_conn.rs:219-310 | on every run: at most one of sender, connect future and deferred error; sender iff driver channel; raised flag implies sender; no retirement while connecting; readiness is never an error |
| `SenderTheorems.DeferredErrorIsStable` | h3-util/src/client_conn.rs:254-262 | while a connect error waits, any number of polls stay ready and change nothing |
| `SenderTheorems.LedgerBalances` | h3-util/src/client_conn.rs:272-318 | starts = installs + failures + in progress; installs = retired + cached, in order; failures = errors handed to calls + deferred, in order; connections never repeat |
| `SenderTheorems.ErrorsReachCallers` | h3-util/src/client_conn.rs:299-318 | over every run the connect errors that calls come back with are those that connects gave to polls, in order and with their text, except for the last while it waits for its call |
| `SenderTheorems.DeadConnectionIsDropped` | h3-util/src/client_conn.rs:223-252 | a cached connection whose driver ended or whose flag is up is let go by the next poll, and only a newer one can take its place |
| `SenderTheorems.FlagsNameConnections` | h3-util/src/client_conn.rs:373-383 | two requests share a flag iff they share a connection, and neither ever goes back |
| `SenderTheorems.RetirementsAreDeserved` | h3-util/src/client_conn.rs:223-252 | every retirement took down a connection whose driver ended or on which, under that flag, a request saw a connection-level error; a flag is up iff such a request exists |
| `SenderTheorems.StreamErrorsNeverReconnect` | h3-util/src/client_conn.rs:15-25 | however many requests fail by stream errors, body errors or drops, nothing is retired and at most one connection is ever installed |
| `SenderTheorems.LateErrorsAreInvisible` | h3-util/src/client_conn.rs:159-167 | whatever a request of a retired generation sees, every future of the sender (fields and whole history) is as if it had not |
| `SenderTheorems.GoawayThenReconnect` | h3-util/src/client_conn.rs:240-252 | from any reachable state a request refused by GOAWAY retires its own connection only, and the next request goes out on a new one under a new flag |
| `Recovery.BoundedRecovery` | h3-util/src/client.rs:248-255 | from any reachable state, if connects succeed and new connections are healthy, then after one failed send every later send is answered by a new connection |
| `Recovery.SendStep` | h3-util/src/client_conn.rs:63-73 | a send that fails removes the last risk of failing; without risk a send is answered by a new connection |
| `Recovery.AnsweredMeansResponded` | h3-util/src/client.rs:248-255 | a send reports an answer from a connection iff it dispatched a request of its own there and that request got its response |
| `BufferedChannel.NeverBricked` | h3-util/src/client.rs:108-114 | over every run the worker never ends, no call takes the not-ready branch or is answered so, requests are called once each in FIFO order |
| `BufferedChannel.QueueDrains` | h3-util/src/client_conn.rs:299-308 | from any reachable state, with any steps of enqueuers, requests, drivers and further polls in between: as many resolved connects, even all refused, each followed by a call, as there are requests outstanding get all of those called, first and in order |
| `BufferedChannel.RoundsAreTurns` | h3-util/src/client_conn.rs:299-308 | the plain schedule of one poll and one call per connect, refused or not, is one that drains |
| `BodySend.SendResetGuard.constructor` | h3-util/src/send_guard.rs:71-79 | armed with H3_REQUEST_CANCELLED |
| `BodySend.SendResetGuard.Disarm` | h3-util/src/send_guard.rs:81-84 | disarmed, same code |
| `BodySend.SendResetGuard.SetErrorCode` | h3-util/src/send_guard.rs:86-89 | new code, still armed as before |
| `BodySend.SendResetGuard.Drop` | h3-util/src/send_guard.rs:106-113 | resets an open stream with its code iff armed |
| `BodySend.ClientBodySend.EnterBlock` | h3-util/src/client_body.rs:131-135 | the first poll, and nothing before it, makes the guard |
| `BodySend.ClientBodySend.Poll` | h3-util/src/client_body.rs:134-178 | one poll of the client body future equals one poll of the await machine, whose length `PollRunsUntilPending` pins |
| `BodySend.ClientBodySend.Drop` | h3-util/src/client_body.rs:131-134 | a hard drop is the machine's hard drop: at an await the guard resets the stream, before the first poll there is none and the half is implicitly finished |
| `BodySend.ClientBodySend.Turn` | h3-util/src/client_body.rs:123-145 | one look by the executor: the cancel signal it acts on is the state of its channel |
| `BodySend.ServerBodySend.Poll` | h3-util/src/server_body.rs:128-166 | the server loop is the client loop with a cancel signal that never fires: same bytes, terminal state and result |
| `BodySend.ServerBodySend.Drop` | h3-util/src/server_body.rs:125-128 | a hard drop ends the stream as the client's does, with and without a guard |
| `BodySendSpec.SendNextKeepsInv` | h3-util/src/client_body.rs:134-178 | from the first poll on, at every await the guard is armed with the cancelled code on an open stream, and what is written plus what is left of the frame is the encoding of the frames taken |
| `BodySendSpec.PollRunsUntilPending` | h3-util/src/client_body.rs:136-178 | a poll goes on as long as its awaits are done and stops only when one is pending or the future returns |
| `BodySendSpec.LookIsExact` | h3-util/src/client_body.rs:136-171 | over every run: a look stays at its await iff that is pending, takes one frame iff the source has one ready, reaches finish iff the source has ended, and puts on the wire what the write hands over |
| `BodySendSpec.EndsExactly` | h3-util/src/client_body.rs:139-178 | over every run: the future returns Ok iff finish succeeded or it was cancelled, an error iff the source, a write or finish failed |
| `BodySendSpec.ExactTerminal` | h3-util/src/client_body.rs:110-134 | FIN iff finish of the whole source succeeded or the future never ran, H3_INTERNAL_ERROR iff source or transport failed, H3_REQUEST_CANCELLED iff cancelled or dropped at an await |
| `BodySendSpec.FinIsWholeUnlessUnpolled` | h3-util/src/client_body.rs:113-134 | over every run: FIN behind less than the whole source iff the source is not empty and the future was dropped before its first poll |
| `BodySendSpec.NothingReadAfterCancel` | h3-util/src/client_body.rs:136-145 | under a raised cancel signal the source is not polled, and FIN, implicit or not, needs that its end was already seen or that the future was never polled |
| `BodyReceive.H3Incoming.PollFrame` | h3-util/src/client_body.rs:62-99 | one poll equals one step of the receive machine |
| `BodyReceive.H3Incoming.Drop` | h3-util/src/client_body.rs:37-51 | stops the peer iff unfinished, with the code of the role, and closes the cancel channel whose sender it holds |
| `BodyReceive.ReceiveSession` | h3-util/src/client_body.rs:37-99 | for every script of transport results: each poll hands on what the transport said, an error iff it was one; no data after trailers, every Pending is the transport's or the single self-wake, STOP_SENDING iff no poll returned end or error |
| `EndToEnd.NoTruncation` | h3-util/src/send_guard.rs:3-9 | for every source and schedule, with open halves implicitly finished: the reader has a prefix, in order data then at most one trailers frame; told of the end, it has the whole of a well-formed source iff the body send was polled before it went away or had no content |
| `EndToEnd.UnpolledDropLooksComplete` | h3-util/src/client_body.rs:113-134 | whatever the source, a send dropped unpolled reaches the reader as a complete empty message |
| `EndToEnd.OneByteIsTruncated` | h3-util/src/client_body.rs:113-134 | the input on which the promise fails: a one-byte body dropped unpolled is reported complete and is not whole |
| `EndToEnd.RequestBodyArrivesWhole` | h3-util/src/client_conn.rs:81-105 | after the eager poll of a request, whatever it came to, the promise holds on every schedule without exception |
| `EndToEnd.FailuresAreDeserved` | h3-util/src/client_body.rs:62-99 | on every schedule: a reader that is over without the end was failed by its transport, or the stream was reset, or something followed the trailers; waiting changes nothing |
| `EndToEnd.CanStillComplete` | h3-util/src/client_body.rs:172-178 | a well-formed transfer that was neither reset nor broken nor dropped unpolled can always still be completed, whole |
| `EndToEnd.CompletesIffWellFormed` | h3-util/src/client_body.rs:136-171 | some schedule that polls the body send reaches the end iff the source is data frames and then at most one trailers frame, so a body that goes on after its trailers, which the loop lets through, is never taken for complete |
| `RequestTask.CancelOwnership` | h3-util/src/client_conn.rs:77-123 | over every life of a request: the receiver sees the signal iff the body exists and neither request future nor response body is alive; a body runs detached iff the eager poll was pending |
| `RequestTask.RequestNeverTruncates` | h3-util/src/client_conn.rs:81-105 | over every life of a request its body send has been polled and guarded, and FIN is behind the whole source |
| `RequestLife.RequestLife.ReceiverSeesOwnersGo` | h3-util/src/client_body.rs:15-16 | on objects: with one sender end in one owner at a time, the channel of the body send is closed iff neither the request future nor the response body is alive |
| `RequestLife.RequestLife.EagerBody` | h3-util/src/client_conn.rs:77-105 | the request future makes channel and body send and keeps the sender end: equals the eager step |
| `RequestLife.RequestLife.Response` | h3-util/src/client_conn.rs:109-123 | the sender end moves from the future into the response body, or is dropped with the error: equals the response step |
| `RequestLife.RequestLife.DropFuture` | h3-util/src/client_conn.rs:63-109 | dropping the request future drops the sender end it holds: equals the drop step |
| `RequestLife.RequestLife.DropResponse` | h3-util/src/client_body.rs:37-51 | dropping the response body drops the sender end it holds: equals the drop step |
| `RequestLife.RequestLife.BodyTick` | h3-util/src/client_conn.rs:97-103 | the detached body looks at its own channel: equals the body step |
| `RequestTask.CancelStopsTheSource` | h3-util/src/client_body.rs:15-16 | once up the signal stays up, the source is never polled again, FIN only if its end had been seen |
| `RequestTask.CancelResetsTheStream` | h3-util/src/client_body.rs:139-143 | a cancelled task resets with H3_REQUEST_CANCELLED when it next runs, or when the write in progress is over |
| `RequestTask.BodyFollowsItsTurns` | h3-util/src/client_conn.rs:97-103 | over every life of a request the body is what the eager poll left, moved on by exactly its own turns and abort, each turn with the signal of its channel at that time |
| `RequestTask.DetachedBodyCompletes` | h3-util/src/client_conn.rs:97-103 | from every reachable state a detached body that is not cancelled, aborted or failed can be brought by turns alone to FIN behind the whole source |
| `RequestTask.SignalRises` | h3-util/src/client_conn.rs:109-123 | a response error, a dropped future or a dropped response body raises the signal; a response that comes does not |
| `RequestWorld.WorldIsARun` | h3-util/src/client_conn.rs:219-384 | with the bodies of all requests in place the sender still goes through one of its own runs, its view of a body being only whether the eager poll returned an error |
| `RequestWorld.RequestsAreIsolated` | h3-util/src/client_conn.rs:200-204 | inside a run of the whole each request with its body goes through a run of its own machine, made of its own steps; which answers those bring is up to the environment, so a retired connection may well fail them |
| `RequestWorld.PhasesTellOfBodies` | h3-util/src/client_conn.rs:63-123 | over every run of the whole: a refused head has sent nothing, a body error has reset its stream with H3_INTERNAL_ERROR, FIN is behind the whole source, cancelled iff future and response are gone |
| `RequestWorld.BodiesNeverReconnect` | h3-util/src/client_conn.rs:15-25 | however many bodies fail, are cancelled, aborted or dropped, nothing is retired and at most one connection is installed |
| `S2nSendStream.SendStream.PollReady` | h3-util/src/s2n/s2n_quic_h3/s2n_quic.rs:381-420 | equals the flush of the machine; the loop terminates by the unread bytes of the buffer |
| `S2nSendStream.SendStream.SendData` | h3-util/src/s2n/s2n_quic_h3/s2n_quic.rs:423-433 | accepted whole iff no buffer is staged |
| `S2nSendStream.SendStream.PollFinish` | h3-util/src/s2n/s2n_quic_h3/s2n_quic.rs:446-454 | flush first, FIN only after a complete flush |
| `S2nSendStream.SendStream.Reset` | h3-util/src/s2n/s2n_quic_h3/s2n_quic.rs:457-461 | resets an open stream; codes beyond a varint become UNKNOWN |
| `S2nSendStream.FlushRefines` | h3-util/src/s2n/s2n_quic_h3/s2n_quic.rs:382-415 | a flush moves a prefix of the queue to the stream and nothing else; ready means both stages are empty; a chunk always has its buffer |
| `S2nSendStream.FlushAnswers` | h3-util/src/s2n/s2n_quic_h3/s2n_quic.rs:381-420 | a flush is ready iff every chunk left is taken whole, pending iff the open stream takes no more for now, an error iff the stream is closed with something left or refuses a chunk |
| `S2nSendStream.FinishAnswers` | h3-util/src/s2n/s2n_quic_h3/s2n_quic.rs:446-454 | poll_finish is pending and failed for the same reasons, failed also if finish itself is, and ready otherwise |
| `S2nSendStream.AcceptIsAllOrNothing` | h3-util/src/s2n/s2n_quic_h3/s2n_quic.rs:423-433 | send_data takes all of the data, behind what is queued, or nothing, with an error iff a buffer is staged |
| `S2nSendStream.ResetIsExact` | h3-util/src/s2n/s2n_quic_h3/s2n_quic.rs:457-461 | an open stream is reset with the code given, or UNKNOWN iff it is 2^62 or more; a closed one is left alone |
| `S2nSendStream.FinishIsFin` | h3-util/src/s2n/s2n_quic_h3/s2n_quic.rs:446-454 | on an open stream poll_finish succeeds iff it puts FIN, and then behind every accepted byte |
| `S2nSendStream.RefinesByteQueue` | h3-util/src/s2n/s2n_quic_h3/s2n_quic.rs:381-461 | over any calls: stream, then chunk, then buffer are the accepted bytes in order |
| `S2nSendStream.FinSealsEverything` | h3-util/src/s2n/s2n_quic_h3/s2n_quic.rs:446-454 | FIN came from one poll_finish, when the stream held every accepted byte, and nothing was added since |
| `S2nSendStream.ResetLeavesPrefix` | h3-util/src/s2n/s2n_quic_h3/s2n_quic.rs:457-461 | after a reset the stream keeps a prefix for ever and never gets FIN |
| `S2nSendStream.FlushGetsThrough` | h3-util/src/s2n/s2n_quic_h3/s2n_quic.rs:382-415 | an open stream that takes every chunk lets the flush finish |
| `Recorder.Recorder.constructor` | tests/bench/src/metrics.rs:20-29 | an empty recorder, given no sample |
| `Recorder.Recorder.RecordSuccess` | tests/bench/src/metrics.rs:32-37 | adds one success and one value clamped to the histogram's range; the recorder still holds what recording all its samples gives |
| `Recorder.Recorder.RecordFailure` | tests/bench/src/metrics.rs:40-42 | adds one failure and no value, and holds what recording all its samples gives |
| `Recorder.Recorder.Merge` | tests/bench/src/metrics.rs:45-49 | holds what recording its own and then the other's samples gives |
| `Recorder.JoinAll` | tests/bench/src/load.rs:186-195 | the join loop merges all recorders, a lost worker counting as one failure: it holds what recording all reports in order gives |
| `Recorder.SplitAndMerge` | tests/bench/src/load.rs:186-195 | any split of the samples, joined in any order, gives the recorder of all samples in any order |
| `Recorder.HistogramCountsSuccesses` | tests/bench/src/metrics.rs:32-42 | one value per success, within bounds; successes and failures add up to the samples |
| `Recorder.RecordsWhatHappened` | tests/bench/src/metrics.rs:32-42 | successes and failures are counted as what they are and the histogram is the clamped latencies of the successes |
| `BenchWorker.Counter.FetchAdd` | tests/bench/src/load.rs:177 | returns the old value and wraps around at 2^64 |
| `BenchWorker.Worker.ClaimTicket` | tests/bench/src/load.rs:176-180 | takes the next ticket or leaves the loop |
| `BenchWorker.Worker.OneRequest` | tests/bench/src/load.rs:136-149 | success iff a reply of the right length came in time, recorded once; the recorder holds exactly the worker's samples |
| `TicketPool.EveryTicketOnce` | tests/bench/src/load.rs:168-195 | under any interleaving of max(concurrency, 1) workers, none of them lost, tickets 0 to total - 1 are claimed once each in order, the counter ends at total + workers (0 if that is 2^64), merged successes and failures are total |
| `TicketPool.LostWorkIsAccounted` | tests/bench/src/load.rs:187-194 | wherever workers are lost: claimed tickets are in order and all claimed if any worker got to the end, and the merged counts are the claimed tickets with those of each lost worker replaced by one failure |
| `TicketPool.ClaimedOnceIffCounterFits` | tests/bench/src/load.rs:177-180 | no run claims a ticket twice iff there are no tickets or total + workers is at most 2^64 |
| `TicketPool.WrapClaimsTwice` | tests/bench/src/load.rs:177-180 | beyond that bound there is a run that hands out ticket 0 again |
| `QuinnAcceptor.H3QuinnAcceptor.SelectConn` | h3-util/src/quinn/server.rs:5-41 | the join result is looked at only for a set that is not empty; a joined task leaves the set |
| `QuinnAcceptor.H3QuinnAcceptor.Accept` | h3-util/src/quinn/server.rs:72-96 | equals one accept of the machine |
| `QuinnAcceptor.AcceptConserves` | h3-util/src/quinn/server.rs:72-96 | a call returns exactly at the first look that is the end of the endpoint, with None, or a connection of a pending handshake, with that connection; it counts every incoming connection, ignores a handshake only if it failed and yields one only if it was established |
| `QuinnAcceptor.HandshakesConserved` | h3-util/src/quinn/server.rs:21-96 | over any calls there is one handshake per incoming connection, in exactly one place: pending iff it has not ended, returned once iff it was established, ignored iff it failed |

## Left out

- h3, quinn, s2n-quic, msquic, quiche, tokio and tower internals: environment with the contracts above; bytes of HTTP/3 frame headers are one token each.
- DNS lookup, address failover and the connectors: `connect` is an outcome.
- The rebuilt URI itself: only whether scheme and authority are there and whether it builds.
- Recorder.Recorder.RecordSuccess: counters are unbounded, so overflow of the u64 counts after 2^64 requests is not modelled, and the histogram keeps exact clamped values instead of three significant figures.
- `H3Client::send`, the `H3Channel` worker and the pool of benchmark workers are machines on values: update in place and sharing of their objects is not captured there.
- BufferedChannel.NeverBricked: a buffered request whose caller gave up is still called, where tower's worker would skip it; the bound of 1024 on the queue and the end of the worker when all handles are dropped are not modelled.
- Duration-limited benchmark runs, throughput and quantile arithmetic, JSON rendering: no shared state or only formatting.
- The axum serve loop, tonic wrappers, the executor, error conversions, TLS and CLI helpers: plumbing with easy properties.
