# A pipelined RPC protocol: model and proofs

This project models the `rpc` package: a client that multiplexes many calls over one connection, the
server end of that connection, the pool of connections a client keeps, and the framing of headers and
bodies on the wire. `dafny verify dfyconfig.toml` checks all of it.

## How it is built

There are five transition systems. A step is a region under a mutex, or one of the unlocked write, flush,
read and complete operations between two such regions; everything the environment decides (what arrives,
what fails, which order a map is walked in, what a random draw gives) is an argument of the step. Theorems
are about every state that some run reaches.

| part | transition system | what runs keep | theorems | the code's own loops |
|---|---|---|---|---|
| client connection | `client_machine` | `client_safety` | `client_theorems`, `client_responses`, `client_ping` | class `ClientConn` in `client_conn` |
| server connection | `server_machine` | `server_safety`, `server_answers`, `server_reads` | `server_theorems`, `server_ping`, `server_witnesses` | class `ServerConn` in `server_conn`, `Server` in `server` |
| both, over two wires | `session` | `session_facts`, `session_safety` | `session_theorems`, `session_stray`, `session_objects`, `session_ping`, `session_disturbance`, `session_witnesses` | |
| client pool | `pool_machine` | `pool_safety`, `pool_balance`, `pool_lists` | `pool_theorems`, `pool_status`, `pool_witnesses` | class `Client` in `client_pool` |
| client pool, each connection with its own server | `network` | `network` | `network` | |

`framing` says who writes and who reads which token, `selection` and `selection_share` treat the weighted
random choice of a server, `codec` holds the gob codec as a writer of tokens, `call` the call objects and
their pool, `counting` counts occurrences. Each method of `ClientConn`, `ServerConn` and `Client`
keeps a ghost state and proves that what it did to its fields is a run of the transition system from the
initial state, so that the theorems hold of these loops too; for `ClientConn` as long as at most 2^64 calls
have been registered (`RunsAreReached`).

## Where the code departs from its intent

The model follows the code. The exact extent of each departure is a theorem.

* `onShutDown` completes what is pending but leaves it in the map, and the clean-up after a failed group
  write looks it up again. A call completes at most twice; twice exactly if it was pending at shutdown and
  belongs to the failed group (`CompletionBound`, `CompletedTwiceExactly`), and that happens
  (`DoubleCompletionHappens`). The flag `repaired` turns on the deletion; then the bound is one. For a call
  that nobody waits for, two completions put its object into the pool twice (`CallPool.CompleteTwice`); for
  one that somebody waits for, the second can end a later call of somebody else (`CallPool.StaleCompletion`).
  A group being written after shutdown reads the arguments of calls that have been completed
  (`TouchedAfterCompletion`).
* A group response always carries its reply body, even where its header says that there is none. The client
  reads the stream whole if and only if no member carries a handler error (`ResponseRoundTrip`), and stops
  after the first one (`ReadResponsesExactly`); one is enough (`HandlerErrorBreaksFraming`). In a session the reader never gets past such a body
  (`ReaderIsHeldUp`); once it stands before it, every further completion is that of a lost connection, a
  shutdown or a failed write (`HandlerErrorEndsSession`). Nothing else puts such a body there
  (`StrayMeansHandlerError`).
* If the queue is found closed while a group is collected, the calls registered so far stay pending without
  having been written, and the writer is gone (`ClientConn.SendCall`); only a shutdown of the reader then
  completes them. The pool of this package never closes a queue.
* An error whose text is empty sets NoData and leaves no error in the header, so that the client reports
  success without a reply; and a handler error whose text is empty is sent as a success. These are the two
  exceptions to the end-to-end theorem, they are exact (`EndToEnd`), and both happen
  (`SilentRefusalHappens`, `SilentErrorHappens`). To the reader a refusal is a success exactly when its text
  is empty (`RefusalLooksFineIffSilent`).
* A request that has been read when the server is found stopped is thrown away. A graceful stop answers
  every request it read except, at most, that one (`GracefulStop`, `DiscardHappens`).
* `pendingWg` is added to and never released for a request with an empty method name, for a panicking
  handler, and for a read that ends the loop; a dummy return whose dispatch fails is answered and released
  twice. `PendingWgExactly` says what the counter is on every run, `WaitReturnsExactly` when `Wait` can
  return, `LeakBlocksStop` that on a run without double answers a leak makes a graceful stop impossible,
  `GracefulStop` that without double answers coming through `Wait` means that nothing is in flight and
  nothing was lost. Each of the exceptions is reached by some run (`server_witnesses`). The Dones of a group
  are single steps, so after a double answer the counter can pass 0 inside a group: `Wait` is then woken
  although a Done is to come (`WokenExactly`, `WokenTooEarly`). What the runtime does if the counter is no
  longer 0 when `Wait` goes on depends on its version; the model allows both, returning and panicking.
* After a double answer the counter can run short, and then a ping in the loop's hand may decide whether a
  Done panics. Pings are transparent to a run if and only if that does not happen in it (`PingTransparency`
  of the server and of the session), and it does happen (`DisturbanceHappens`).
* A server that becomes CONNECT_FAILED keeps its weight in `totalWeight`; `TotalExactly` says what the total
  is in every reachable state. Selection stays total, because the total never exceeds the weights that are
  not paused (`SelectionWorks`). The test is `>=`, so the first server of the walk gets one draw too many
  and the last one too few (`WeightedShare`).
* A last dial that fails overwrites a pause: a pause ends exactly by a change of status or in this way
  (`PauseEndsExactly`), and then the server is chosen again although nobody ended its pause
  (`PauseIsUndone`).
* A service registered under a name with a dot is never found under its own name (`FoundByOwnName`).

## Conventions

* A call is identified by its submission, not by its pooled object; a registered call by the number of its
  registration, and a request on the server by the order of acceptance.
* Sequence numbers wrap at 2^64. Theorems about connections assume at most 2^64 registrations (`FewCalls`).
* A wire is the log of the tokens handed to the encoder, with the position up to which the other side has
  read. A token may be read as soon as it is written: a full buffer writes through before any Flush, so
  this allows more than the code does. A failed write may get a prefix of its tokens through. A token of
  the wrong kind is a read error.
* A handler is a relation between method, argument and result, so it may keep state.
* A custom dispatcher is assumed to complete exactly the calls it accepts, once each. `FreedOnce`, `RunsOnce`
  and `ExecutedAtMostOnce` rest on that.

## Model

| member | source | states |
|---|---|---|
| SessionTheorems.EndToEnd | rpc/client_conn.go:162-223 | in every interleaving of all five routines over both wires, take a call that wants a reply and completes without error: it holds what the handler of its own method returned, without error, for its own arguments, if and only if the server did not refuse it with an empty text and its handler did not return an error with an empty text; it completes without a reply if and only if it was so refused |
| SessionTheorems.EndToEndWithTexts | rpc/server_conn.go:232-243 | if no refusal and no handler error has an empty text, success always means the handler's own reply, returned without error |
| SessionTheorems.ErrorsAreReal | rpc/client_conn.go:208-222 | whatever the reader completes a call with, the server had accepted that very call; an error text that reaches a call, whether or not it wants a reply, is the one it was refused with or the one its own handler returned; a call without a reply object gets none |
| SessionTheorems.FailsExactlyWhenErred | rpc/server_conn.go:232-243 | a call that wants its reply and whose response was read whole fails with a text if and only if the server refused it with that text or its handler returned it |
| SessionWitnesses.CallSucceeds | rpc/client_conn.go:162-223 | a run in which a call completes without error, with the reply its handler returned |
| SessionWitnesses.SilentRefusalHappens | rpc/server_conn.go:183-187 | a run in which a call completes without error and without a reply, because its dispatch failed with an empty text |
| SessionWitnesses.SilentErrorHappens | rpc/server_conn.go:233-238 | a run in which a call completes without error although its handler returned an error, whose text is empty |
| SessionTheorems.AcceptedOnceInOrder | rpc/server_conn.go:125-194 | the server accepts calls in the order in which the client registered them, each at most once |
| SessionTheorems.ExecutedAtMostOnce | rpc/server_conn.go:183-193 | for one call at most one handler is ever started, whether the call wants its reply or is a dummy return |
| SessionTheorems.ServerReached | rpc/server_conn.go:112-230 | the server's part of a session is a run of the server connection, so that what holds of those holds in sessions |
| SessionStray.ReaderIsHeldUp | rpc/client_conn.go:162-223 | in every state of every session the reader has read nothing from an unannounced body on |
| SessionStray.StrayMeansHandlerError | rpc/server_conn.go:386-396 | the converse: an unannounced body on the response wire is the reply of a handler of this session that returned an error with a text |
| SessionStray.HandlerErrorStrands | rpc/server_conn.go:386-396 | a group with a handler error that gets through to the wire puts such a body there |
| SessionStray.HandlerErrorEndsSession | rpc/client_conn.go:164-168 | once the reader stands before it, it stays there, and every later completion is that of a lost connection, a shutdown or a failed write |
| SessionWitnesses.StrayBodyHappens | rpc/server_conn.go:389 | a run in which a handler error leaves such a body on the wire and the reader stands before it |
| SessionObjects.TouchedAfterCompletion | rpc/client_conn.go:297-299 | of a group being written, the call whose arguments are read next, and every later one, has already been completed if and only if onShutDown has run |
| SessionPing.PingTransparency | rpc/client_conn.go:37-41 | erasing the connection's own pings and their answers, but no user call of the method ping, from a session gives a run with the same pending calls, completions, requests, answers and, between pings, the same counter, on wires that lack exactly those tokens, if and only if no step of the server was disturbed by such a ping |
| SessionDisturbance.DisturbanceHappens | rpc/server_conn.go:368-408 | a session that is disturbed by one of its own pings, so that pings are not transparent to it |
| SessionPing.TransparentWithoutDoubleAnswers | rpc/client_conn.go:325-333 | in particular in every session in which no dummy return was answered twice |
| SessionSafety.StepKeepsInv | rpc/client_conn.go:229-251 | every step of either side keeps what both ends and both wires agree on |
| ClientTheorems.OnePlaceBeforeShutdown | rpc/client_conn.go:175-179 | before shutdown a registered call is in exactly one of: `pending`, the reader's hand, the writer's hand, completed once |
| ClientTheorems.CompletionBound | rpc/client_conn.go:308-361 | a call completes at most twice, at most once before shutdown or with the repair, and twice only if it was pending at shutdown and in the failed group |
| ClientTheorems.CompletedTwiceExactly | rpc/client_conn.go:308-361 | once reader and writer are done, exactly the calls pending at shutdown and in the failed group have completed twice |
| ClientTheorems.DoubleCompletionHappens | rpc/client_conn.go:309-319 | a run that completes a call twice as written and once with the repair |
| ClientTheorems.NoCallLost | rpc/client_conn.go:124-147 | after shutdown and the writer's exit every call ever dequeued was registered and completed, or turned away; at most one was turned away |
| ClientTheorems.NothingNewAfterShutdown | rpc/client_conn.go:254-263 | after shutdown `pending` only shrinks, nothing is registered, and at most one more call is taken from the queue |
| ClientTheorems.BatchingIsInvisible | rpc/client_conn.go:265-306 | the requests written are, in order, a prefix of what one-at-a-time sending would write, with sequence numbers 0, 1, 2 and so on, even if a write fails inside a group |
| ClientTheorems.KeysAreFresh | rpc/client_conn.go:235-237 | a key in `pending` is its registration's own number and lies below `seq` |
| ClientResponses.OutcomesAreResponses | rpc/client_conn.go:162-223 | on every run, for calls with and without a reply object: at most one response is read for a call, it carries the call's number, and what the reader tells the call is what the response says: a failure if and only if it has an error text or its body broke; without a response the reader tells it nothing |
| ClientSafety.StepKeepsInv | rpc/client_conn.go:111-364 | every step keeps the accounts of keys, groups, completions, written requests and taken calls |
| ClientPing.PingTransparency | rpc/client_conn.go:325-333 | erasing the connection's own pings and their answers gives a run with the same pending calls, completions, taken calls and requests in the same order |
| ClientConnection.ClientConn.MakeRequestHeader | rpc/client_conn.go:229-252 | the header of the call under the next key, and the call registered under it |
| ClientConnection.ClientConn.TurnAway | rpc/client_conn.go:254-263 | a closed connection completes the call itself and registers nothing |
| ClientConnection.ClientConn.Collect | rpc/client_conn.go:265-290 | the loop takes the first min(100, waiting) calls of the queue, registers them in order and makes each one's request: its header under its own key, and its arguments; a queue found empty and closed before 100 are taken ends the writer |
| ClientConnection.ClientConn.WriteAll | rpc/client_conn.go:297-303 | the codec gets the stream of the group, or of the part before the first write that fails, and perhaps that request's header |
| ClientConnection.ClientConn.WriteGroup | rpc/client_conn.go:296-307 | succeeds if and only if every write and the flush do, and then the whole group is on the wire; otherwise it has failed |
| ClientConnection.ClientConn.CleanUp | rpc/client_conn.go:308-321 | exactly the members still pending are completed, once each; nobody else is touched |
| ClientConnection.ClientConn.SendGroupCall | rpc/client_conn.go:296-323 | either the whole group is on the wire and nothing else changed, or every member still pending was completed with the write error, once |
| ClientConnection.ClientConn.SendCall | rpc/client_conn.go:254-323 | on a closed connection the call is completed on the spot; on an open one it and the first min(100, waiting) calls are registered in order, and then either the wire has gained, call by call, the tokens a session writes for them and all are pending, or all were completed with the write error, once each; if the queue is found closed meanwhile they stay pending and nothing is written |
| ClientConnection.ClientConn.SendPing | rpc/client_conn.go:325-333 | the connection's own ping, which touches no call |
| ClientConnection.ClientConn.WriterTurn | rpc/client_conn.go:124-147 | one turn of the writer, for a call, a closed queue, a ping or the exit notice: when it goes on and what became of every call |
| ClientConnection.ClientConn.OnShutDown | rpc/client_conn.go:335-361 | everything pending is completed once, with ErrShutdown only if the stream ended after Close; as written the map keeps its entries |
| ClientConnection.ClientConn.HandleResponse | rpc/client_conn.go:175-223 | the first response for a pending key completes that call: failed with the header's text if there is one, else failed if the body broke, else succeeded with the body that was read or with none; a later one is read and dropped, and nobody else is touched |
| ClientConnection.ClientConn.ReaderTurn | rpc/client_conn.go:152-227 | one turn of the reader: a ping's answer changes nothing; a response completes its call as said above; after an error, of the header or of a body, everything else pending is lost and the reader is gone |
| ClientConnection.RunsAreReached | rpc/client_conn.go:111-227 | whatever these methods do is a run of the transition system, for which the theorems hold |
| ClientConnection.ClientConn.Close | rpc/client_conn.go:366-375 | sets `closing` and closes the codec; a second call changes nothing and reports it |
| ServerTheorems.ExactlyOneAnswer | rpc/server_conn.go:144-193 | an accepted request is in flight in one place, or answered once, or met one of four exceptions; exactly a dummy return whose dispatch failed counts once more |
| ServerTheorems.AnswersMatchRequests | rpc/server_conn.go:348-408 | nothing else is answered, and each answer carries its request's sequence number and method and the content the request earned |
| ServerTheorems.MisframedMeansHandlerError | rpc/server_conn.go:386-396 | of the answers a server writes, exactly group members with a handler error are misframed |
| ServerTheorems.PendingWgExactly | rpc/server_conn.go:142-157 | on every run the counter is what is in flight plus what leaked minus double answers; without exceptions it is what is in flight |
| ServerTheorems.ReadExactly | rpc/server_conn.go:132-140 | every request read was accepted, in the order of the reads, or is in the loop's hand, or is the one that a stopped server threw away |
| ServerTheorems.DiscardedExactlyWhenStopped | rpc/server_conn.go:132-140 | a request is thrown away exactly by the status check that finds the server stopped after the read |
| ServerTheorems.GracefulStop | rpc/server_conn.go:134-140 | if `Wait` returned and nothing was answered twice: the counter is 0, no worker, channel or writer holds anything, nothing was lost or will be sent late, and each request read was answered exactly once, except at most the last, which was then thrown away by the status check |
| ServerTheorems.WaitReturnsExactly | rpc/server_conn.go:134-140 | `Wait` returns at once exactly when double answers make up for everything in flight and every leak |
| ServerTheorems.WokenExactly | rpc/server_conn.go:405-407 | once woken, `Wait` finds the counter at 0 or below, below only after a double answer |
| ServerTheorems.LeakBlocksStop | rpc/server_conn.go:142-157 | on a run without double answers, after a nameless request, a panicking handler or a fatal read the counter stays positive and `Wait` never returns |
| ServerTheorems.DroppedOnlyUngracefully | rpc/server_conn.go:256-259 | a group is dropped only if the loop left without the graceful wait, or after a double answer |
| ServerTheorems.BatchesKeepOrder | rpc/server_conn.go:245-273 | `doneChan` is a queue; each consumer writes what it took, in that order and once, except for a dropped last group; a group has at most 101 members |
| ServerTheorems.SingleConsumerIsFifo | rpc/server_conn.go:202-230 | while the loop takes nothing off the channel, answers leave in the order in which workers reported |
| ServerTheorems.FreedOnce | rpc/server_conn.go:59-71 | a call object has at most one owner, is freed at most once, and nobody holds it afterwards |
| ServerTheorems.RunsOnce | rpc/server_conn.go:183-193 | a handler is started at most once for a request, and only for an accepted one |
| ServerTheorems.WorkWasStarted | rpc/server_conn.go:183-193 | only a handler that was started works, returns or panics |
| ServerTheorems.ReturnsOnce | rpc/server_conn.go:275-287 | whoever is about to return has no result yet |
| ServerWitnesses.DoubleAnswerHappens | rpc/server_conn.go:175-186 | a run that answers a dummy return twice |
| ServerWitnesses.WokenTooEarly | rpc/server_conn.go:405-407 | a run in which `Wait` is woken inside a group and the next Done makes the counter negative |
| ServerWitnesses.NamelessHappens | rpc/server_conn.go:152-157 | a run that counts a request without a name and never answers it |
| ServerWitnesses.PanicHappens | rpc/server_conn.go:275-287 | a run in which a handler panics and its request stays counted |
| ServerWitnesses.FatalReadHappens | rpc/server_conn.go:142-151 | a run in which a read ends the loop after the counter was raised |
| ServerWitnesses.DropHappens | rpc/server_conn.go:256-259 | a run in which the response writer drops a finished call |
| ServerWitnesses.LateHappens | rpc/server_conn.go:275-287 | a run in which a handler reports after the channel was closed |
| ServerWitnesses.DiscardHappens | rpc/server_conn.go:134-140 | a graceful stop that throws away the request it has just read |
| ServerAnswers.StepKeepsInv | rpc/server_conn.go:112-408 | every step keeps the accounts of places, owners, the counter, closing, and the content and order of answers |
| ServerPing.PingTransparency | rpc/server_conn.go:161-164 | erasing pings from a run gives a run with the same requests, results, answers, channel, workers and writer and, between pings, the same loop and counter, if and only if no ping in hand decided whether a Done panics |
| ServerPing.TransparentWithoutDoubleAnswers | rpc/server_conn.go:161-164 | in particular on every run in which no dummy return is answered twice |
| ServerWitnesses.PingHidesPanic | rpc/server_conn.go:368-408 | a reachable state in which a ping in hand keeps the response writer's Done from panicking |
| ServerConnection.ServerConn.ReadRequest | rpc/server_conn.go:289-346 | the outcome of a read: nothing without a header, the ping, the request with its body, or the refusal with the decoder's text or with the text of its own lookup outcome: ill-formed without a dot, no such service, no such method |
| ServerConnection.ServerConn.MakeRespHeader | rpc/server_conn.go:348-366 | the imperative header is the specified one: an error suppresses the reply, no reply sets NoData |
| ServerConnection.ServerConn.Collect | rpc/server_conn.go:245-269 | the group is the first call and the next min(100, waiting) of the channel; it is given up exactly if the channel was found empty and closed |
| ServerConnection.ServerConn.SendGroupResponse | rpc/server_conn.go:386-408 | the tokens of every member in order, replies always included; everything but the loop's own dummy return is freed; one Done each, with the panic exactly if the counter was too small |
| ServerConnection.ServerConn.DoWriteResponse | rpc/server_conn.go:245-273 | for both callers: a segment of the channel is answered in order, once each, and leaves the counter, or all of it is dropped |
| ServerConnection.ServerConn.SendResponse | rpc/server_conn.go:368-384 | one header, no body, one Done; a ping's answer is not logged |
| ServerConnection.ServerConn.DispatchCall | rpc/server_conn.go:183-193 | the handler runs for somebody or for nobody; a refused call is answered even if it was before |
| ServerConnection.ServerConn.ServeDummy | rpc/server_conn.go:175-190 | a dummy return is answered before it runs, and once more if its dispatch fails |
| ServerConnection.ServerConn.HandleRequest | rpc/server_conn.go:125-194 | one turn of the read loop: where it goes next, what it accepts and exactly what it answers, for each kind of request |
| ServerConnection.ServerConn.WriterTurn | rpc/server_conn.go:202-230 | one turn of the response writer: at most 101 calls leave the channel, are answered in order and freed; it goes on unless the channel ended or the counter went negative |
| ServerConnection.ServerConn.WhenFuncCallDone | rpc/server_conn.go:64-71 | a reported call goes on the channel unless that is closed; a dummy return is freed |
| RpcServer.Server.GetServiceMethod | rpc/server.go:287-310 | the name is cut at its first dot; each of the four outcomes exactly when its condition holds |
| RpcServer.LookupIsUnique | rpc/server.go:287-310 | there is one answer to a lookup |
| RpcServer.FoundByOwnName | rpc/server.go:287-310 | a registered method is found under its own full name if and only if the service's name has no dot |
| RpcServer.StopsOnce | rpc/server.go:231-260 | over any sequence of starts (`MarkRunning`) and stops of a new server: it is new until the first start, runs from then on, and is stopped for good by the first stop after that; one stop works if some start comes before some stop, and otherwise none |
| RpcServer.Server.Stop | rpc/server.go:255-274 | works once, on a running server, and tells every listed connection in order |
| RpcServer.Server.OneServerConnStop | rpc/server.go:316-328 | the first entry for the connection is removed, the order of the others stays |
| PoolTheorems.CallPartition | rpc/client.go:145-172 | over all servers, queues and connections each submission is in exactly one place: a SendCall's hand, one queue, one writer's hand, one connection's registrations, or completed with an error |
| PoolTheorems.RegisteredOnce | rpc/client_conn.go:175-179 | within each connection of the pool a registration is in one place until shutdown, and completes at most twice ever |
| PoolTheorems.SubmittedOnceEndsOnce | rpc/client.go:145-172 | once its SendCall has returned, a call was completed once with an error, or is in one queue, or reached one connection |
| PoolWitnesses.CallIsRegistered | rpc/client.go:145-172 | a run in which a call submitted to a new server is registered, as the first, on the one connection that was dialled for it |
| PoolTheorems.QueueBound | rpc/client.go:126 | no queue holds more than MaxWaitCall calls |
| PoolTheorems.ConnectionCap | rpc/client.go:286-317 | on every run, whatever interleaves between the two locks, a server's list never exceeds the larger of 1 and the highest cap that any AddServer of the run gave it, and has no duplicates |
| PoolTheorems.RemovedOnce | rpc/client.go:251-260 | each connection is removed at most once, exactly when its dial fails or its reader is gone, and is listed until then |
| PoolTheorems.SelectionWorks | rpc/client.go:262-284 | in every reachable state with weights that are not negative, every walk and draw gives a server exactly when one is not paused, never a paused one, and otherwise the right error |
| PoolStatus.TotalExactly | rpc/client.go:320-331 | in every reachable state the total is the weight of the normal servers plus that of those whose last dial failed, while they were normal, since the last refresh |
| PoolTheorems.FailedServerStaysInTotal | rpc/client.go:326 | in any state a failed last dial puts the total further out of step by exactly the weight of a normal server, and by nothing otherwise |
| PoolStatus.SharesExactly | rpc/client.go:262-284 | in every reachable state with weights that are not negative each server wins exactly its interval of the weights that are not paused, cut off at the total, and the wins use up all draws |
| PoolStatus.PausedUntil | rpc/client.go:262-284 | until then a paused server stays paused and is chosen for no call |
| PoolStatus.PauseIsUndone | rpc/client.go:320-331 | a run in which a failing dial undoes a pause, and the server can be chosen again |
| PoolBalance.StepKeepsBalance | rpc/client.go:115-331 | no step loses or duplicates a call |
| PoolLists.StepKeepsConns | rpc/client.go:286-355 | every step keeps lists, dials and removals consistent |
| Network.EndToEnd | rpc/client.go:145-172 | over many servers and connections, a call submitted once that wants its reply and completes without error was registered on one connection only, and holds its own handler's reply under the same exact condition |
| Network.RegisteredInOnePlace | rpc/client.go:145-172 | a call submitted once is registered at most once over all connections, and then it was not refused and waits in no queue |
| Network.StepKeepsInv | rpc/client_conn.go:80-109 | every connection of the pool with its server and wires is a session |
| Selection.SelectionIsTotal | rpc/client.go:262-284 | selection is total and correct if the total is at most the sum of weights that are not paused |
| Selection.SelectFromExactly | rpc/client.go:269-282 | when the loop finds a server, from any point on and for any draw |
| Selection.WalkSum | rpc/client.go:135-143 | the sum does not depend on the order of the walk |
| Selection.TotalMoves | rpc/client.go:135-143 | a change to one server moves the total by its weight or not at all: it counts before and after if and only if it is there and normal |
| SelectionShare.SelectedAt | rpc/client.go:277-279 | the draws that fall to the server at a given place form an interval of its weight, with draw 0 added for the first that is not paused |
| SelectionShare.WinsExactly | rpc/client.go:266-282 | for any map and any number of draws a paused server wins nothing and any other its interval, cut off at that number |
| SelectionShare.SharesAddUp | rpc/client.go:266-282 | the wins of all servers use up all draws |
| SelectionShare.WeightedShare | rpc/client.go:266-282 | with all servers normal and the total in step the first server wins its weight plus one draws, the last its weight minus one, every other exactly its weight |
| ClientPool.Client.UpdateTotalWeight | rpc/client.go:135-143 | the loop computes the total over normal servers, for any walk |
| ClientPool.Client.GetServerInfo | rpc/client.go:262-284 | the loop computes the specified choice, never a paused server, and fails only if there is nothing to choose |
| ClientPool.Client.ChooseServer | rpc/client.go:286-305 | the choice for this walk and draw, and whether the call may be queued at once: exactly if the server has a connection and its queue is empty or its list is full |
| ClientPool.Client.AddConn | rpc/client.go:306-318 | a connection is added exactly if the list was empty, or the queue was not and the list was below the cap; then the list grows by exactly the new one |
| ClientPool.Client.DialFailed | rpc/client.go:319-331 | the connection leaves the list, the order of the others stays, and the last one to leave marks the server as failed |
| ClientPool.Client.AddServer | rpc/client.go:115-133 | a known server gets the given weight and cap and keeps its status, queue and connections; a new one starts normal and empty; nobody else changes, and the total is refreshed |
| ClientPool.Client.ChangeServerStatus | rpc/client.go:406-420 | a known server gets the given status, keeps everything else, and the total is refreshed; an unknown one changes nothing, and nobody else changes |
| ClientPool.Client.RemoveConn | rpc/client.go:251-260 | the search from the back removes the connection's only entry |
| ClientPool.Client.OnConnShutdown | rpc/client.go:341-355 | the search from the front gives the same list |
| ClientPool.Client.Drain | rpc/client.go:369-380 | with nobody else at the queue, each queued call is completed once, in order, and the queue is empty |
| ClientPool.Client.SendCall | rpc/client.go:145-172 | with nobody else at work: the server gets another connection if and only if it had none, or calls were waiting and it was below its cap; the call ends up at the end of the chosen server's queue or is completed once with an error; other calls go with it only if the last dial failed, before it and in order |
| Framing.ReadResponsesExactly | rpc/client_conn.go:162-223 | the client understands every answer up to the first misframed one and stops there |
| Framing.ResponseRoundTrip | rpc/server_conn.go:386-396 | as written, a stream is read back whole if and only if no group member carries a handler error or answers a ping |
| Framing.RepairedResponseRoundTrip | rpc/server_conn.go:348-396 | once the body is suppressed when NoData is set, every stream is |
| Framing.RequestRoundTrip | rpc/server_conn.go:289-345 | the server consumes exactly the tokens of each request if and only if arguments are nil exactly when the ping flag is set |
| Framing.ClientRequestRoundTrip | rpc/client_conn.go:247-299 | for requests made from calls: if and only if arguments are nil exactly for the method named ping |
| GobCodec.Codec.WriteRequest | rpc/codec.go:130-143 | the request's tokens, or the part before the encoding that failed |
| GobCodec.Codec.WriteResponse | rpc/codec.go:93-115 | header, and body if there is one; a failing encode flushes what is buffered to the wire and, if that works, closes |
| GobCodec.Codec.Close | rpc/codec.go:121-128 | the connection itself is closed exactly once |
| CallObjects.CallPool.WhenCallDone | rpc/call.go:78-120 | exactly one of: delivered to a blocked receiver or into the buffer, discarded because there is neither, or freed |
| CallObjects.CallPool.CompleteTwice | rpc/call.go:78-90 | a call that nobody waits for and that is completed twice is handed out twice |
| CallObjects.CallPool.StaleCompletion | rpc/client.go:212-225 | the second completion of a call that was waited for reaches whoever got the recycled object |
| RpcTypes.HeaderOf | rpc/client_conn.go:229-252 | the header of a call: its key and method, ping exactly for the method ping, dummy return exactly without a reply |
| RpcTypes.RespHeaderOf | rpc/server_conn.go:348-366 | the header of a response: sequence number and method of its request, data exactly with a reply and without an error |

## Left out

- ClientPool.Client.SendCall: the theorems about concurrent SendCalls are those of the pool's transition system; the method is one SendCall without interference.
- ClientPool.Client.Drain: an empty queue at the end needs that nobody sends to it meanwhile; with producers the loop need not end.
- ServerConnection.ServerConn.DoWriteResponse: the method runs without workers reporting meanwhile; interleaving with them is in the server's transition system.
- ClientTheorems.KeysAreFresh: nothing is claimed once more than 2^64 calls have been registered on one connection.
- The capacity of `doneChan` (MaxWaitResp) and the rendezvous of a queue with MaxWaitCall 0: these channels are queues, a report never blocks, and a queue of capacity 0 refuses every call.
- Liveness: no claim that a call eventually completes. After a write error the writer exits while the reader and the list entry stay, so nothing follows from a connection being listed.
- Go's `int` overflow in sums of weights: weights are unbounded integers.
- Server entries are values in a map, connections and calls are named by numbers: the aliasing of pointers is not modelled, except for call objects in `call`.
- A write error on the server is only logged by the code; the server's log records what was handed to the codec, and the wires of the session decide how much of it gets through.
- Reads that fail because a deadline could not be set, which leave the read loop before the counter is raised.
- Dialling, listening, deadlines, the accept loop, Unix socket files and `getNetAddr`: input and output, represented by arguments that say success or failure.
- The client's "no valid server" callback, the reports of GetAllServerInfo, logging, and timers beyond "a ping may be written now".
- Gob, AMF and JSON encodings: a stream is made of typed tokens. The AMF codec is not modelled.
- Registration of services by reflection (`register`, `suitableMethods`, `rpc/util.go`): the service table is given.
- `CancelCall` beyond what completion does with a cancelled call, the waiting in SyncCall and AsyncCall, and SyncCall's disabled retry and time-out code.
- The recover handlers other than those of a negative counter, a panicking handler and a send on a closed channel.
- `rpc/error.go` beyond which error a call fails with; the drivers, `chapter_1`, `main.go` and `test.go`.
