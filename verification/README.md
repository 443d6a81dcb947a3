# Verified models of audioipc

audioipc moves a cubeb audio stack out of process: clients call a server over a
framed byte pipe, the server hands back stream pipes and shared memory, and audio
data flows through one shared buffer in each stream. These Dafny modules model
the protocols of that system and prove that they do what callers rely on.
`dafny verify dfyconfig.toml` checks everything.

## What is modelled

**Calls over a byte pipe.** `Rpc` is the RPC layer as message queues: any number of
threads call through cloned proxies, each call queues a completion writer, and
responses are matched to callers by order alone, because no message carries an
identifier. `RpcSafety` and `RpcTheorems` prove what every run keeps, `RpcLiveness`
that every call ends once the connection is gone, `RpcProgress` that every call is
answered while it lives, and `RpcLifetimes` how long that is. `Codec` is the frame
format, `Link` one direction of a connection as bytes cut anywhere, and `RpcBytes` the
same RPC system over two such links; it refines `Rpc`, so every claim about calls
holds over bytes. `RpcHandlers`, `Driver` and `Connection` are the objects of the
source (handlers, framed driver, connection) with their loops and in-place updates;
`RpcDriver` shows that the driver's loops, and `RpcEvents` that whole events and
wakeups of a connection, are runs of the byte-level machine.

**The protocols around it.** `Completion` is the park/unpark handshake over a cell in
another thread's stack frame. `EventLoop` is the loop's bounded request queue, its
waker, binding and shutdown, with any number of pushing threads; the results are in
`EventLoopSafety` (the ledger of requests), `EventLoopWakeups` (messages),
`EventLoopTheorems` (binding and shutdown), `EventLoopProgress` (everybody is served)
and `EventLoopStranding`, and `EventLoopObject` shows that the request loop, which
changes the slab in place, is a run of that machine. `Handles` is the Unix path that
carries descriptors beside the bytes: `HandlesSafety` is pairing, `HandlesOwnership`
and `HandlesOnce` who owns what, `HandlesResults` what every run gives and what a
failed send costs, `HandlesFailedSend` two runs that pay it, `HandlesDelivery` one
that does not have to, `HandlesLimits` what the fixed sizes bear, and `HandleObjects`
the objects and loops. `RpcHandles` puts the two halves together, the RPC machine with
its responses on that path, and `RpcHandlesDelivery` runs one call through it.

**The server's streams.** `StreamConfig` is parameter validation and the checked u32
arithmetic of the shared area and the latency. `AudioCallback` and `AudioStream` are
the data callback from device to application and back, through one buffer that is both
input and output. `StreamServer` and `CubebServer` are the life of a stream in the
slab, and `Devices` the device handles and the device-collection manager.

Each machine is a total function `Apply(state, step)` that performs one atomic step of
one thread, or `None` if the step cannot happen; a run is a sequence of steps, and the
results quantify over every run. Panics, failed assertions and `io::Error`s are
explicit outcomes.

## What is assumed of the environment

- `Waker::wake` does not fail, and `poll` may return early or for other reasons.
- The pipe is a reliable FIFO of bytes; each read and write moves any prefix, or
  would block, is interrupted, or fails. In `Connection` the operating system is a script
  that answers each call; an exhausted script answers "would block".
- bincode is a pair `ser`/`deser` such that what serializes reads back and is no longer
  than the message limit (`Codec.Sound`); either may refuse.
- Atomic operations, the lock-free queue and reference counts are sequentially
  consistent steps; `Arc`/`Weak` are counts, the slab is a map whose vacant key is
  any key not in it.
- A connection, a client, a server or the whole loop may be torn down at any step.
- The cubeb backend may fail or accept any call and may call back at any moment
  while it has, or is making, a stream. A device-registration call that fails
  changes nothing.

## What turned out to be conditional

- A wakeup pushed on a full event-loop queue is dropped without an error
  (`audioipc/src/ipccore.rs:167-173`). At rest a message is left only if its own push
  was refused (`NothingIsForgotten`), and a connection has one left if and only if a
  push was refused while its message waited and since then none was accepted for the
  connection and no flush of it has ended (`LeftBehindIff`). `RefusedWakeupStrands`
  builds such a run for every queue capacity.
- A send that fails leaves the handles it encoded in the control-message scratch,
  which both directions of a pipe share (`audioipc/src/sys/unix/mod.rs:57-125`). The
  next send that succeeds ships them again; the next receive, if it comes first,
  queues them as if the peer had sent them, and clears the scratch. Over every run,
  handles and messages are in step if and only if no send ever shipped what an
  earlier one had left (`InStepIff`), and the sender's descriptors have one owner and
  are closed once if and only if no receive ever took it (`SenderOwnsOnceIff`). So
  after a send that fails with a handle queued one of the two is always lost: the
  first without, the second with a receive before the retry (`FailedSendCosts`).
  `FailedSendMispairs` and `FailedSendClosesTwice` are runs of each kind. What holds
  regardless is that no decoded message lacks a handle (`NothingPanics`) and that the
  receiver owns what it gets exactly once (`ReceiverOwnsOnce`).
- A fixed shared-memory size fits every permitted latency if and only if it holds
  one second of audio (`FixedAreaFitsIff`; `FixedAreaCanBeTooSmall` is a stream that
  overruns 64 KiB); the automatic size always does.
- A callback for zero frames returns 0 only on a stream without output: with one,
  the empty output is rejected first (`server/src/server.rs:254-268`,
  `CallbackRefuses`).
- The backend's device-change callbacks are enabled exactly when somebody is
  registered if and only if no registration or removal fails half-way
  (`KeepsStepIff`, `BackendFollowsList`).
- The server panics on a request for a stream that was created but not initialized,
  and on the initialization of one that names an unknown device; `PanicsIff` shows
  that these are the only two panics of the stream life cycle.

## Model

| member | source | states |
|---|---|---|
| Wire.PutThenRead | audioipc/src/codec.rs:87-100 | little-endian integers of any width read back |
| Wire.ReadThenPut | audioipc/src/codec.rs:87-100 | and the bytes are determined by the integer they stand for |
| Codec.DecodeOnce | audioipc/src/codec.rs:137-174 | one decode: an item always consumes bytes or leaves the Data state, so the decode loop terminates even on empty payloads |
| Codec.DecodeStable | audioipc/src/codec.rs:87-126 | a decode never looks past its frame: later bytes change neither item nor error, and after "more" decoding resumes where it stopped |
| Codec.DecodeAllSplit | audioipc/src/ipccore.rs:653-673 | running the decode loop on a prefix and then on the rest is running it on the whole, including the first failure |
| Codec.DecodeAllIdle | audioipc/src/ipccore.rs:653-673 | a loop that ends without failure leaves no complete frame behind |
| Codec.ChunkingIrrelevant | audioipc/src/codec.rs:137-174 | for every stream and every way of cutting it: same messages, same final state and leftover bytes, same first failure |
| Codec.FrameHeader | audioipc/src/codec.rs:176-199 | a frame is 12 bytes longer than its payload, and the magic, the length and the payload read back |
| Codec.FrameOnTheWire | audioipc/src/codec.rs:176-199 | a frame byte for byte: magic, length, payload |
| Codec.DecodeFailsIff | audioipc/src/codec.rs:87-126 | decoding fails exactly on a wrong magic, on a length over a mebibyte, and on a payload bincode refuses, and says which |
| Codec.LengthDelimitedCodec.DecodeLength | audioipc/src/codec.rs:87-100 | takes the header if it has arrived, and only then; a wrong magic is the assertion failure |
| Codec.LengthDelimitedCodec.Decode | audioipc/src/codec.rs:137-174 | the stateful decode equals the value-level one, in result, state and buffer |
| Codec.LengthDelimitedCodec.Encode | audioipc/src/codec.rs:176-199 | appends exactly one frame, or fails or panics and appends nothing |
| Link.EncodeAppends | audioipc/src/codec.rs:176-199 | encoding adds a message at the end of what a link carries |
| Link.TransferKeeps | audioipc/src/ipccore.rs:574-600 | sending or receiving any number of bytes changes neither the messages on a link nor their order |
| Link.DecodeIsPop | audioipc/src/codec.rs:137-174 | whatever part has arrived, a decode never fails: it yields exactly the oldest message or asks for more and loses nothing |
| Link.HeaderConsumed | audioipc/src/codec.rs:137-160 | after its header is consumed a link carries the tail of that frame and the frames behind it |
| Link.ArrivedIsDecodable | audioipc/src/codec.rs:137-174 | once all bytes are there, the oldest message is decoded: nothing gets stuck |
| Link.CarriedAreDecoded | audioipc/src/ipccore.rs:653-673 | the messages of a link are determined by its bytes: they are what the decode loop makes of them |
| Link.FramesRoundTrip | audioipc/src/codec.rs:129-199 | encode then decode, with the bytes cut anywhere, is the identity on message sequences |
| RpcSafety.StepKeeps | audioipc/src/rpccore.rs:163-389 | one step of any thread keeps the invariant: writers are where their state says, sent calls match requests, answers and FIFOs in order |
| RpcSafety.Reachable | audioipc/src/rpccore.rs:345-357 | the invariant holds after every run from `make_client` |
| RpcSafety.ConsumeKeeps | audioipc/src/rpccore.rs:243-252 | a response always finds the call it answers at the front of `in_flight` |
| RpcSafety.AnswersGrow | audioipc/src/rpccore.rs:368-373 | each answer is that of a server which has handled exactly the requests before it |
| RpcTheorems.CallsGetTheirOwnAnswers | audioipc/src/rpccore.rs:163-171 | every call that returns Ok returns the server's answer to its own request; requests are processed in the order they left the queue; "mismatch" is never reported |
| RpcTheorems.PushIsRefusedIff | audioipc/src/rpccore.rs:311-321 | a push is accepted, last, unless 32 requests are queued; then the call ends with an error and the queue is as it was |
| RpcTheorems.MismatchIff | audioipc/src/rpccore.rs:243-252 | in every run a response is refused, and ends the connection, exactly when no call is in flight |
| RpcTheorems.WritersConserved | audioipc/src/rpccore.rs:254-273 | each started call's writer is in exactly one place: caller, queue, in flight or finished |
| RpcTheorems.FinishedIsFinal | audioipc/src/rpccore.rs:77-104 | no call is completed twice, over any continuation of any run |
| RpcTheorems.DropResolvesEveryone | audioipc/src/rpccore.rs:311-321 | once the handler is dropped, even racing a push that holds a strong reference, a writer is unfinished only while some caller has yet to finish its push; when all have reached `wait`, none waits forever |
| RpcLiveness.EveryCallEnds | audioipc/src/rpccore.rs:89-104 | from every reachable state with the handler gone, a finite schedule of the callers' own steps returns every call, with an error where there was no answer |
| RpcProgress.EveryCallIsAnswered | audioipc/src/rpccore.rs:163-171 | from every reachable state of a live connection, a finite schedule of callers' steps and of items encoded and decoded returns every call, with the answer to its own request unless a full queue had refused it |
| RpcTheorems.DropMeansError | audioipc/src/rpccore.rs:89-104 | a call unanswered when the handler is dropped can only end with an error |
| RpcTheorems.NoProxiesNobodyWaits | audioipc/src/rpccore.rs:254-260 | when the proxy count is zero, queue and `in_flight` are empty and every call has returned, so giving up cancels nobody |
| RpcTheorems.ProxiesNeverRevive | audioipc/src/rpccore.rs:186-212 | the proxy count never rises again from zero |
| RpcLifetimes.ProxiesAreThoseLeft | audioipc/src/rpccore.rs:186-212 | over every run the live proxies are the first one and every clone made, less those dropped, read off the steps |
| RpcLifetimes.GivesUpIff | audioipc/src/rpccore.rs:254-260 | in every run, `produce` gives up exactly when every proxy ever made has been dropped, or the request cannot be encoded |
| RpcLifetimes.CloneOutlivesOriginal | audioipc/src/rpccore.rs:186-197 | from every reachable state a live proxy can be cloned, and the clone keeps the connection when the original goes |
| RpcLifetimes.StartsLive | audioipc/src/rpccore.rs:345-357 | a new connection is live, with one proxy and nothing under way |
| RpcLifetimes.NewCallIsAnswered | audioipc/src/rpccore.rs:163-171 | on a live connection a call can be made through any live proxy at any time, and returns the server's answer to its request after a finite schedule |
| RpcLifetimes.OrderlyEnd | audioipc/src/rpccore.rs:254-273 | from every reachable live state, all calls can return, the proxies be dropped, and the handler give up by itself with nobody's call cancelled |
| RpcLifetimes.TornDownAtAnyTime | audioipc/src/rpccore.rs:89-104 | client and server can be torn down in every reachable live state, and a finite schedule of the callers' own steps then returns every call |
| RpcLifetimes.TornDownOverBytes | audioipc/src/rpccore.rs:89-104 | the same over bytes, whatever is on its way |
| RpcBytes.StepRefines | audioipc/src/ipccore.rs:505-611 | one byte-level step is a queue-level step or nothing |
| RpcBytes.BytesRefineQueues | audioipc/src/ipccore.rs:648-705 | every byte-level run is a queue-level run whose FIFOs hold exactly the messages on the links, and no stream is ever corrupt |
| RpcBytes.ByteCallsGetTheirOwnAnswers | audioipc/src/rpccore.rs:163-171 | over bytes cut anywhere in both directions, a call that returns Ok returns its own answer |
| RpcBytes.ByteDropResolvesEveryone | audioipc/src/rpccore.rs:89-104 | over bytes, tearing the client down leaves no caller waiting |
| RpcBytes.QuiescentMeansAnswered | audioipc/src/ipccore.rs:648-705 | on a live connection with nothing left to move or decode, every call that was sent is answered |
| RpcBytes.CorruptIff | audioipc/src/codec.rs:137-174 | a stream is found corrupt exactly by a decode that fails |
| RpcProgress.EveryByteCallIsAnswered | audioipc/src/ipccore.rs:648-705 | the same over bytes, in whatever pieces they have travelled so far, if the requests of the calls and the answers to them can be encoded |
| RpcHandles.StepFollows | audioipc/src/ipccore.rs:648-705 | a step of the RPC system whose responses carry handles, unless it ships something twice, is a step of the queue machine or none |
| RpcHandles.StopsForGood | audioipc/src/ipccore.rs:653-703 | nothing happens after a panic or a failed assertion on a queue of handles |
| RpcHandles.HandlesRefineQueues | audioipc/src/ipccore.rs:648-705 | every run that ships nothing twice is a run of the queue machine whose responses are bodies with their handles |
| RpcHandles.AnswersCarryTheirHandles | audioipc/src/rpccore.rs:163-171 | a call that returns Ok returns the server's answer to its own request, with the handle the server made for that answer |
| RpcHandlesDelivery.FirstAnswerArrives | audioipc/src/rpccore.rs:163-171 | from the start, a call whose answer has a handle and can be serialized does return that answer, handle included |
| RpcHandlers.ClientHandler.Push | audioipc/src/rpccore.rs:311-321 | the push step: refused exactly when 32 requests are queued, and then the writer is dropped unset |
| RpcHandlers.ClientHandler.Produce | audioipc/src/rpccore.rs:254-273 | does what the handler run by the driver does: gives up exactly when no proxy is live; otherwise pops the oldest request and moves its writer to the end of `in_flight` |
| RpcHandlers.ClientHandler.Consume | audioipc/src/rpccore.rs:243-252 | does what the handler run by the driver does: completes the oldest call in flight; an error exactly when there is none |
| RpcHandlers.ClientHandler.Drop | audioipc/src/rpccore.rs:223-237 | drops every writer in flight unset, and those in the queue if nobody else holds it |
| RpcHandlers.HandlersTerminate | audioipc/src/ipccore.rs:679-705 | each item produced leaves one less, so the flush loop ends |
| RpcHandlers.ServerHandler.Consume | audioipc/src/rpccore.rs:368-373 | does what the handler run by the driver does: processes the request at once and queues the response last |
| RpcHandlers.ServerHandler.Produce | audioipc/src/rpccore.rs:375-389 | hands out the oldest response, if any |
| Driver.ReceiveSplit | audioipc/src/ipccore.rs:648-676 | receiving in two pieces is receiving the whole: same handler state, codec state and leftover |
| Driver.FramedDriver.ProcessInbound | audioipc/src/ipccore.rs:648-676 | decodes and consumes everything decodable, in order, or reports the first failure, when the handler has consumed exactly what came before it |
| Driver.FramedDriver.FlushOutbound | audioipc/src/ipccore.rs:679-705 | appends the frames of every item the handler produces, in order, up to one that cannot be encoded, which is lost; Ok exactly when all could be and the handler did not give up |
| RpcDriver.ClientInboundIsRun | audioipc/src/ipccore.rs:648-676 | the client's inbound loop is a run of decode steps of the byte-level machine; when it fails, on a bad frame or an unexpected response, the run ends with the handler dropped, after it has consumed what came before |
| RpcDriver.ServerInboundIsRun | audioipc/src/ipccore.rs:648-676 | the server's inbound loop is a run of decode steps; when it fails, on a bad frame, the run ends with the handler dropped, after it has processed the requests before |
| RpcDriver.ClientFlushIsRun | audioipc/src/ipccore.rs:679-705 | the client's flush loop is a run of encode steps; when it fails, with no proxy left or on a request that cannot be encoded, the run ends with the handler dropped and the frames before it queued |
| RpcDriver.ServerFlushIsRun | audioipc/src/ipccore.rs:679-705 | the server's flush loop is a run of encode steps; when it fails, on a response that cannot be encoded, the run ends with the handler dropped and the frames before it queued |
| RpcEvents.ClientEventIsRun | audioipc/src/ipccore.rs:463-492 | bytes taken, messages handled and produced and bytes sent in one event of a client are one run of the byte-level machine, which ends with the handler dropped if the flush fails |
| RpcEvents.ServerEventIsRun | audioipc/src/ipccore.rs:463-492 | the same for a server |
| RpcEvents.ClientEvent | audioipc/src/ipccore.rs:463-492 | handle_event on a client's connection is a run of the byte-level machine; when it fails, the run ends with the connection removed, the bytes where they are and the handler dropped as it then stands |
| RpcEvents.ClientWake | audioipc/src/ipccore.rs:494-503 | handle_wake on a client's connection is a run of the byte-level machine; when it fails, the run ends with the connection removed, the bytes where they are and the handler dropped as it then stands |
| RpcEvents.ServerEvent | audioipc/src/ipccore.rs:463-492 | handle_event on a server's connection is a run of the byte-level machine; the same when it fails |
| RpcEvents.ServerWake | audioipc/src/ipccore.rs:494-503 | handle_wake on a server's connection is a run of the byte-level machine; the same when it fails |
| Connection.ReceiveLeavesIdle | audioipc/src/ipccore.rs:505-555 | after input is processed no complete frame is waiting, so sleeping until the next byte is safe |
| Connection.Connection.New | audioipc/src/ipccore.rs:379-395 | a new connection is registered for reading, and the registry agrees |
| Connection.Connection.UpdateRegistration | audioipc/src/ipccore.rs:437-459 | the registry follows the stored interest; no interest means not registered |
| Connection.Connection.SendOutbound | audioipc/src/ipccore.rs:571-611 | bytes leave the buffer exactly as they enter the pipe; if the connection stays, it is WRITABLE exactly while output is queued, and then the pipe has just said that it would block; it fails only if the pipe breaks or the registry refuses a call |
| Connection.Connection.RecvInbound | audioipc/src/ipccore.rs:505-555 | the bytes taken from the pipe, however many reads they took, are processed as one stream; it reads until the pipe would block, is finished only at end of stream, and fails only if the pipe breaks or something received is bad or refused |
| Connection.Connection.HandleEvent | audioipc/src/ipccore.rs:463-492 | a kept connection is READABLE, WRITABLE exactly while output is queued, and the registry agrees; input is consumed and output queued and sent without loss, both until the pipe would block, so no edge-triggered event is missed; when it is finished, and why, and that it is then registered for nothing more unless writing ended it; it fails only for a stated reason: a broken pipe, a refused registration, or a message that is bad, refused or cannot be encoded; and how far it has then come |
| Connection.Connection.HandleWake | audioipc/src/ipccore.rs:494-503 | as for an event, without reading: no queued output is stranded; when it fails, why, and how far it has come |
| Completion.HandshakeIsSafe | audioipc/src/rpccore.rs:37-107 | over every interleaving no assertion fires, the item is never read and written at once, and while a writer may touch a completion it is allocated, its flag is set and its item is not being taken |
| Completion.WaitReturnsWhatWasSet | audioipc/src/rpccore.rs:40-48 | over every run, a call that is over has returned from `wait` what `set` was called with, read off the steps, or None if it was not, unless its push failed; `set` is called at most once, and the item is gone |
| Completion.ParkedHasAWaker | audioipc/src/rpccore.rs:89-104 | a thread parked without a token has a writer that has yet to unpark it |
| Completion.OwnerFinishes | audioipc/src/rpccore.rs:40-69 | once the writer is gone, the owner leaves `call` by its own steps alone, and if its push had succeeded `wait` has returned what was set |
| Completion.CallFinishes | audioipc/src/rpccore.rs:40-104 | from any state, an armed call can be finished by its writer's and its owner's own steps, with whatever value the writer is given |
| Completion.NewCallReturns | audioipc/src/rpccore.rs:163-171 | from every reachable state a new thread can make a call and be idle again: `wait` returns what the writer is given, if the push succeeds |
| Completion.ViolationIff | audioipc/src/rpccore.rs:77-104 | a violation is a pointer used after the release, a failed assertion on the flag, or the item read and written at once, and nothing else |
| Completion.TokensAreUnparks | audioipc/src/rpccore.rs:40-48 | over every run a park token is there exactly if an unpark came after the last park that used one |
| Completion.ParkUsesTheToken | audioipc/src/rpccore.rs:40-48 | while its flag is set the owner parks: with a token it is back at the flag at once and the token is used, without one it sleeps |
| Completion.TheWayOut | audioipc/src/rpccore.rs:40-69 | with the flag clear the owner takes the item, looks at the flag once more for the drop, and only then releases the memory |
| Completion.TheWayOfTheWriter | audioipc/src/rpccore.rs:77-104 | `set` asserts and writes, and the drop clears the flag before it unparks the owner |
| Completion.SleepersLookAgain | audioipc/src/rpccore.rs:40-48 | a sleeper may be woken at any time, by anyone or by nothing, and looks at the flag again before it goes on |
| EventLoopSafety.RunKeeps | audioipc/src/ipccore.rs:237-342 | every run keeps the ledger of pushed, queued and served requests, the slab, the replies and the duty to wake the loop |
| EventLoopWakeups.StepWatched | audioipc/src/ipccore.rs:237-342 | every step of every thread keeps each queued message covered: by its own push, an accepted request, a flush under way, or not at all because its push was refused and nothing was accepted since |
| EventLoopWakeups.NothingIsForgotten | audioipc/src/ipccore.rs:237-342 | when the loop sleeps and no thread is about to act, its queue is empty and a message is left only if its own push was refused |
| EventLoopWakeups.LeftBehindIff | audioipc/src/ipccore.rs:167-173 | at rest a connection has messages left if and only if a push was refused while its message waited and since then none was accepted for it and no flush of it ended |
| EventLoopWakeups.SomebodyIsOnTheWay | audioipc/src/rpccore.rs:163-184 | in every state a connection with messages has somebody who will flush it, unless it is left behind in that sense, and a queued request somebody who will drain it |
| EventLoopWakeups.StarvedExactly | audioipc/src/ipccore.rs:167-173 | that history grows exactly by a push refused while its message waits, and shrinks exactly by a push accepted for the connection and by the end of a flush |
| EventLoopTheorems.InstalledWhereVacant | audioipc/src/ipccore.rs:216-231 | a connection enters the slab under a vacant key, in the step that tells its binder |
| EventLoopTheorems.BindReturnsAfterInstall | audioipc/src/ipccore.rs:137-155 | a blocking bind returns Ok(token) only for a connection installed under that token, and an error only for one that was not; the reply channel never panics |
| EventLoopTheorems.NothingBehindShutdown | audioipc/src/ipccore.rs:288-341 | requests are served in the order pushed; nothing behind a served Shutdown is served or installed |
| EventLoopTheorems.BindersAreAnswered | audioipc/src/ipccore.rs:345-364 | when the loop is gone, every blocked binder has Ok, an error, or a closed channel, according to what became of its request |
| EventLoopTheorems.TellingPanicsIff | audioipc/src/ipccore.rs:290-301 | answering a binder panics exactly if it no longer waits |
| EventLoopProgress.EverybodyIsServed | audioipc/src/ipccore.rs:237-342 | from every reachable state, a finite schedule of the threads' and the loop's own steps brings the loop to rest with every thread through, every waiting binder answered, every request served carried out, and messages left only for starved connections |
| EventLoopProgress.NewBindIsInstalled | audioipc/src/ipccore.rs:137-155 | an idle loop installs the next connection that is bound and tells the binder under which token |
| EventLoopProgress.NewMessageIsFlushed | audioipc/src/ipccore.rs:306-338 | a message queued for a bound connection, with its wakeup, is flushed |
| EventLoopProgress.NewShutdownEndsTheLoop | audioipc/src/ipccore.rs:302-305 | a shutdown ends the loop and every connection |
| EventLoopProgress.PollFailureEndsTheLoop | audioipc/src/ipccore.rs:345-364 | a poll that fails ends the loop and every connection, and every waiting binder is still answered |
| EventLoopProgress.EventFlushes | audioipc/src/ipccore.rs:247-285 | while it handles events the loop can flush any connection, and changes nothing else |
| EventLoopProgress.ConnectionsDieAlone | audioipc/src/ipccore.rs:247-285 | a connection can die exactly while the loop handles it or events, and takes only its own slot and messages with it |
| EventLoopStranding.RefusedWakeupStrands | audioipc/src/ipccore.rs:167-173 | for every capacity, a run in which a full queue drops a wakeup and a message is left behind |
| EventLoopObject.EventLoop.AddConnection | audioipc/src/ipccore.rs:216-231 | the slab and the handler queues afterwards, and what a waiting binder is told |
| EventLoopObject.EventLoop.ServeBind | audioipc/src/ipccore.rs:290-301 | the AddConnection arm installs under the offered key, and tells a binder that waits, and nobody else, how that went; a run of the machine |
| EventLoopObject.EventLoop.ServeWake | audioipc/src/ipccore.rs:306-338 | the WakeConnection arm flushes or removes the connection, and does nothing for one that is gone; a run of the machine |
| EventLoopObject.EventLoop.HandleWake | audioipc/src/ipccore.rs:306-338 | flushes everything the connection's handler holds, or removes the connection after any number of messages; a run of the machine |
| EventLoopObject.EventLoop.ServeRequests | audioipc/src/ipccore.rs:288-341 | the request loop is a run of the machine that ends with an empty queue and a blocked loop, or with Shutdown as the last request served; the object has told exactly the binders that the machine has answered, among them every binder served that waits |
| HandleObjects.SerializableHandle.TakeHandle | audioipc/src/messages.rs:349-358 | yields the descriptor exactly when it is owned here, and leaves nothing to take |
| HandleObjects.SerializableHandle.TakeHandleForSend | audioipc/src/messages.rs:361-371 | yields the descriptor exactly when it is meant for the peer, after which the handle serializes as invalid |
| HandleObjects.SerializableHandle.SetLocalHandle | audioipc/src/messages.rs:589-603 | whatever was deserialized is replaced by the received descriptor, which can then be taken |
| HandleObjects.ConnectionBuffer.PushHandle | audioipc/src/sys/mod.rs:57-60 | queues last, or panics exactly when 16 are queued |
| HandleObjects.ConnectionBuffer.PopHandle | audioipc/src/sys/mod.rs:62-64 | takes the oldest |
| HandleObjects.Pipe.SendMsg | audioipc/src/sys/unix/mod.rs:97-125 | the queue becomes one more header of the scratch; success ships every header in order, closes each of the queue once and clears both; failure ships, closes and clears nothing |
| HandleObjects.Pipe.RecvMsg | audioipc/src/sys/unix/mod.rs:57-91 | queues the bytes, and the first header of the scratch: what was received, or what was left there in its place; clears the scratch; panics exactly when more than 16 descriptors would wait |
| HandleObjects.SenderSends | audioipc/src/sys/unix/mod.rs:97-125 | a send on the objects is the machine's SendOk or SendError |
| HandleObjects.SenderReceives | audioipc/src/sys/unix/mod.rs:57-91 | a receive on the sender's pipe is the machine's step that takes what a failed send left for handles from the peer |
| HandleObjects.ReceiverReceives | audioipc/src/sys/unix/mod.rs:57-91 | a receive on the receiver's pipe is the machine's RecvOk |
| Handles.Arrived | audioipc/src/sys/unix/mod.rs:57-91 | ancillary data arrives with the byte it is attached to: exactly the leading marks before the read position |
| HandlesSafety.HandleHasArrived | audioipc/src/sys/unix/mod.rs:57-91 | in every run a handle is never behind the frame of its message |
| HandlesSafety.SendStepped | audioipc/src/sys/unix/mod.rs:97-125 | a send keeps handles and messages in step if and only if the scratch is empty |
| HandlesSafety.DecodePairs | audioipc/src/ipccore.rs:653-672 | a decoded handle-bearing message finds a handle waiting, and its own unless something was shipped twice |
| HandlesOwnership.ClosesTwiceIff | audioipc/src/messages.rs:487-501 | closing a list closes nothing twice if and only if all of it is open and nothing is repeated |
| HandlesOwnership.SendOwns | audioipc/src/sys/unix/mod.rs:97-125 | a send closes the sender's copies of the queue once |
| HandlesOwnership.FlushOwns | audioipc/src/ipccore.rs:683-703 | flushing moves a message's descriptor to the outbound queue, or closes it if encoding fails; taking it never panics |
| HandlesOwnership.DropSenderOwns | audioipc/src/messages.rs:487-501 | tearing the sender down closes everything, and something twice exactly if a receive took what a failed send had left |
| HandlesOwnership.DropReceiverOwns | audioipc/src/messages.rs:487-501 | tearing the receiver down closes everything it still owns, once |
| HandlesOwnership.SoundIff | audioipc/src/messages.rs:344-396 | the sender's descriptors have one owner each, are open and closed once if and only if nothing was taken that way |
| HandlesOnce.HandlesAreInOnePlace | audioipc/src/messages.rs:344-396 | over every run that ships nothing twice, the handles made are those on their way, in exactly one place each between the server and the receiving application, and those closed; none is both, and none is lost |
| HandlesResults.StepKeeps | audioipc/src/messages.rs:344-396 | every step, failed sends and receives after them included, keeps pairing and ownership as far as they hold |
| HandlesResults.NothingPanics | audioipc/src/ipccore.rs:653-672 | in every run, failed sends or not, a decoded handle-bearing message finds a handle and no state panic is reached |
| HandlesResults.ReceiverOwnsOnce | audioipc/src/messages.rs:344-396 | in every run the receiver has one owner for each descriptor, has open exactly those, closes none twice, and after tear-down keeps only what its application took |
| HandlesResults.SlotsAllowOneUse | audioipc/src/messages.rs:344-396 | each state of a SerializableHandle allows one use and panics on the others; once taken it serializes as -1 |
| HandlesResults.PanicsIff | audioipc/src/ipccore.rs:653-703 | a step panics exactly when a handle is taken in the wrong state, a message claims a handle and none has arrived, or a frame is bad |
| HandlesResults.HandlesStayPaired | audioipc/src/ipccore.rs:653-672 | over every run, each decoded handle-bearing message gets the handle it was sent with until a send ships what an earlier one had left |
| HandlesResults.InStepIff | audioipc/src/sys/unix/mod.rs:97-125 | over every run, while both ends live, handles and messages are in step if and only if no send did that |
| HandlesResults.SenderOwnsOnceIff | audioipc/src/sys/unix/mod.rs:57-91 | over every run, the sender's descriptors have one owner each, are open and closed once if and only if no receive took what a failed send had left; a sender that is gone has none open and has closed one twice exactly if one did |
| HandlesResults.FailedSendCosts | audioipc/src/sys/unix/mod.rs:57-125 | a failed send, any steps of both ends, and a retry: in step if and only if no handle was queued or the pipe received in between; one owner if and only if none was queued or it did not; both if and only if none was queued |
| HandlesLimits.ThreeHeadersAtMost | audioipc/src/sys/unix/cmsg.rs:25-58 | over every run, headers of more than three failed sends never fit the scratch |
| HandlesLimits.FailedSendsFitIff | audioipc/src/sys/unix/cmsg.rs:25-58 | from an empty scratch, failed sends in a row fit if and only if there are at most three with one or two handles queued, two with up to six, one with more |
| HandlesLimits.AdoptionOverflowsIff | audioipc/src/sys/mod.rs:57-60 | failed sends that alternate with receives reach the assertion on the inbound handle queue in exactly the round that brings it past 16 |
| HandlesLimits.LimitReachedIff | audioipc/src/sys/mod.rs:57-60 | the assertion on a queue of handles fires exactly when a seventeenth would be queued, would have arrived, or would be adopted |
| HandlesLimits.QueuesStayBounded | audioipc/src/sys/mod.rs:57-60 | over every run without that, no queue of handles holds more than 16 |
| HandlesFailedSend.FailedSendMispairs | audioipc/src/sys/unix/mod.rs:97-125 | with any serializer, a run in which a message is decoded with another's handle after one failed send and a retry |
| HandlesFailedSend.FailedSendClosesTwice | audioipc/src/sys/unix/mod.rs:57-91 | with any serializer, a run in which the sender closes a descriptor twice after one failed send and a receive |
| HandlesDelivery.HandleIsDelivered | audioipc/src/ipccore.rs:648-705 | from any quiet state a message can be sent with a new handle; the application then owns one descriptor more, open and standing for it, and can close it |
| HandlesDelivery.EndsCanGo | audioipc/src/messages.rs:487-501 | in every run each end can be torn down whenever it is still there, and then has nothing open but what the application had taken |
| StreamConfig.MaskRoundsDown | server/src/server.rs:805 | the bit mask of the area size rounds down to a multiple of 64 KiB |
| StreamConfig.ValidateIff | server/src/server.rs:359-407 | which parameters are accepted: a direction at least, known formats, 1 to 255 channels, 1 to 768 kHz, and both directions alike |
| StreamConfig.FrameSizes | audioipc/src/messages.rs:151-163 | two bytes a channel for 16 bits and four for floats, so floats take twice the room |
| StreamConfig.UnusedTakesNothing | server/src/server.rs:785-805 | a direction that is not used takes no room in the area |
| StreamConfig.AreaIsLeast | server/src/server.rs:796-805 | no overflow, and the area is the least multiple of 64 KiB that holds one second of audio |
| StreamConfig.RoundUpIsLeast | server/src/server.rs:890-893 | round_up_pow2 is the least power of two at or above its argument, and below twice it |
| StreamConfig.ClampIsNearest | server/src/server.rs:894-902 | `clamp` gives the nearest value in range, and panics exactly if there is no range |
| StreamConfig.LatencyIsClamped | server/src/server.rs:894-902 | no overflow, the minimum is the least power of two at or above 5 ms and never above the maximum, so `clamp` cannot panic; the result is the request moved into that range |
| StreamConfig.AutomaticAreaFits | server/src/server.rs:796-805 | with automatic sizing a buffer of `latency` frames fits the area in both directions |
| StreamConfig.FixedAreaFitsIff | server/src/server.rs:806-808 | a fixed area fits every latency a client can ask for if and only if it holds one second of audio |
| StreamConfig.FixedAreaCanBeTooSmall | server/src/server.rs:806-808 | a validated stereo stream at 48 kHz that a fixed area of 64 KiB does not fit |
| AudioCallback.GetSlice | audioipc/src/shm.rs:26-42 | a view exists exactly up to the size of the mapping, and is its prefix |
| AudioCallback.Isolated | client/src/stream.rs:97-108 | with its input copied, the application runs as on separate buffers, whatever it reads and writes |
| AudioCallback.CopyNeededIffDuplex | client/src/stream.rs:204-219 | without the copy every application runs as on separate buffers if and only if one direction is absent |
| AudioCallback.AnyPeer | server/src/server.rs:270-306 | whatever a peer answers and does to the shared memory: an error with the output untouched, or a count in 0..=nframes with exactly those frames copied |
| AudioCallback.CallbackMeans | server/src/server.rs:225-307 | end to end, the application sees the device input unchanged by its own writes, and exactly the frames it returns reach the device |
| AudioCallback.CallbackRefuses | server/src/server.rs:232-268 | in every other case an error, or 0 for no frames on an input-only stream; the output is untouched |
| AudioCallback.ErrorsAreNoCounts | server/src/server.rs:225-307 | a result is -1, the error, or a count up to what was asked for |
| AudioCallback.MulOverflowsIff | server/src/server.rs:270-306 | `checked_mul` fails exactly beyond 64 bits |
| AudioCallback.AssertionsFireIff | client/src/stream.rs:101-103 | the client's duplex assertions fire if and only if a duplex stream is asked for no frames, which the server never does |
| AudioStream.ServerStreamCallbacks.BeforeCall | server/src/server.rs:225-268 | the part before the RPC: the shared array afterwards and the early result |
| AudioStream.ServerStreamCallbacks.AfterCall | server/src/server.rs:270-306 | the part after the RPC: the result and the whole output buffer |
| AudioStream.CallbackServer.constructor | client/src/stream.rs:204-219 | a duplex buffer of the size of the area exactly for duplex streams |
| AudioStream.CallbackServer.Call | client/src/stream.rs:110-133 | the application on real pointers that may alias |
| AudioStream.CallbackServer.Process | client/src/stream.rs:66-138 | the Data arm on arrays equals its value-level description |
| AudioStream.RunCallback | server/src/server.rs:225-307 | one callback through both objects over the same array, with no panic |
| AudioStream.LatencyIsServed | server/src/server.rs:796-805 | on a validated stream with an automatic area, no callback for up to `latency` frames is refused |
| StreamServer.LifecycleHolds | server/src/server.rs:850-948 | between two requests every live slot is Created or Ready, never both or neither |
| StreamServer.PipesHandedOnce | server/src/server.rs:937-947 | a pipe is handed out at most once per creation, the missing-parameters and invalid-state cases are unreachable, and no callback is forwarded before Ready |
| StreamServer.PipesAreTold | server/src/server.rs:937-947 | over every run the pipes handed out are those the replies speak of, in order |
| StreamServer.CallbacksReachReadyStreams | server/src/server.rs:225-345 | in every run a callback on a Ready stream reaches its client, at any moment, and one on a stream being initialized is ignored |
| StreamServer.RequestsAreAnswered | server/src/server.rs:492-619 | in every run, what an init, use or destroy comes to depends on whether the stream is unknown, Created or Ready; a refused request changes nothing |
| StreamServer.DefensiveCases | server/src/server.rs:850-948 | the two cases that no run reaches have an answer and a panic of their own |
| StreamServer.CreationIsAnswered | server/src/server.rs:779-847 | creation is refused exactly for bad parameters or failed resources, and otherwise makes a Created slot with those parameters and a birth of its own |
| StreamServer.OthersUntouched | server/src/server.rs:779-948 | no step touches the slot of another stream |
| StreamServer.EnumerationIsKnown | server/src/server.rs:137-144 | an enumeration makes the device known and changes nothing else |
| StreamServer.PanicsIff | server/src/server.rs:492-510 | exactly when the server panics: a request on a Created stream, or an init with an unknown device |
| StreamServer.LifeRoundTrip | server/src/server.rs:779-948 | create, init, use, destroy works; a second init is refused and hands nothing out; the slab ends as it was |
| StreamServer.BackendFailureRemoves | server/src/server.rs:926-933 | a backend failure removes the slot, and the token is invalid afterwards |
| CubebServer.WholeInitIsRun | server/src/server.rs:850-948 | one call of process_stream_init is a run of the stream machine |
| CubebServer.CubebServer.StreamCreate | server/src/server.rs:779-847 | the new slab and reply, or an error and an unchanged slab |
| CubebServer.CubebServer.StreamInit | server/src/server.rs:850-948 | the new slab, reply and panic, in the order the code makes its changes |
| CubebServer.CubebServer.StreamUse | server/src/server.rs:492-510 | a request on a token: invalid, a panic, or served |
| CubebServer.CubebServer.StreamDestroy | server/src/server.rs:609-619 | removes the slot, or reports an invalid token |
| Devices.HandlesAreStable | server/src/server.rs:124-150 | over every sequence of enumerations a handle keeps mapping back to its device, and 0 to 0 |
| Devices.HandlesAreUnique | server/src/server.rs:137-144 | two devices have the same handle if and only if they are the same; only the null device has handle 0 |
| Devices.DevIdMap.Make | server/src/server.rs:137-144 | the search-or-append loop equals its specification and keeps the table free of duplicates |
| Devices.KeepsStepIff | server/src/server.rs:45-98 | one operation keeps the backend in step with the list if and only if it does not fail half-way |
| Devices.BackendFollowsList | server/src/server.rs:45-98 | over every run, both directions are enabled exactly when the list is not empty if and only if no operation fails half-way |
| Devices.RetainExact | server/src/server.rs:59-71 | removal takes all and only the matching entries |
| Devices.UnregistersExactly | server/src/server.rs:59-71 | an unregistration takes all and only the matching entries and keeps the order of the others, whatever the backend does |
| Devices.RegistersExactly | server/src/server.rs:45-57 | a registration adds one entry, last, unless it is the first and the backend refuses |
| Devices.ListFollowsOperations | server/src/server.rs:45-71 | over every run the backend does not refuse, an entry is listed as often as it was registered since it was last unregistered |
| Devices.RegisterThenUnregister | server/src/server.rs:45-71 | registering and removing a new entry leaves list and backend as they were |
| Devices.NotifiesExactly | server/src/server.rs:99-106 | a change notifies each entry registered for its type exactly once, in order of registration, and no other |
| Devices.WhoIsNotified | server/src/server.rs:99-106 | the callback of a direction reaches those registered for it or for both, and no others |
| Devices.CubebDeviceCollectionManager.Register | server/src/server.rs:45-57 | the new list and backend state, and when it is an error |
| Devices.CubebDeviceCollectionManager.Unregister | server/src/server.rs:59-71 | the new list and backend state, and when it is an error |
| Devices.CubebDeviceCollectionManager.Changed | server/src/server.rs:99-106 | the loop calls exactly those servers, in order |

## Left out

- The Completion handshake, the pushing threads of the event loop and the poll over readiness events are machines on values, because other threads step between any two of their statements; they are not objects, and only the request loop of `poll` is.
- Weak memory: Acquire/Release operations are taken as sequentially consistent steps.
- Windows: named pipes, handle duplication into the target process and the remote-handle path are not modelled; handles are the Unix path only.
- The internals of mio, the slab, crossbeam's queue, `Arc`/`Weak`, bincode and serde: only their contracts appear, as listed above.
- Event batches and edge-triggered readiness: `EventLoop` lets any connection be flushed while events are handled; it does not model which events poll reports.
- "The last proxy drop wakes the loop" is not claimed: the count is read before the reference is released (`audioipc/src/rpccore.rs:199-212`), so two overlapping drops can both see the other.
- That the manager's list is empty when it is dropped is not claimed: a server unregisters each direction by exact match (`server/src/server.rs:447-471`), so an entry for both directions stays.
- Bytes already in an outbound buffer when a client or server is torn down stay in the byte-level model but no longer move; the source drops the buffer.
- Handles.FlushOne: goes on after a message whose encoding fails, where the source closes the connection; the model allows more runs than the source, and the teardown is a step of its own.
- A descriptor number is never used again after it is closed: closing twice is recorded as such, and not as closing whatever the number has come to name.
- What becomes of a header for which the control-message scratch has no room, and what the kernel truncates: `HandlesLimits` says when there is room, on a 64-bit Linux; the machine goes on as if there were.
- In `RpcHandles` requests travel as a queue; that they travel as bytes is `RpcBytes`.
- Handles travel one way, from the end that sends ClientMessage: no other message type carries one (`audioipc/src/messages.rs:606-612`).
- AudioCallback.Meaning: an application that reads or writes outside the buffers it is given, or never returns, is outside the model; the callback must stay in bounds.
- Buffers of the C entry point with a null pointer or a negative frame count (`server/src/server.rs:952-976`) are covered only as empty buffers.
- What cubeb makes of a sample format it does not know is not part of this model; the server rejects such formats before using them.
- A callback in flight on an audio thread while its stream is destroyed: cubeb's guarantee that none is, is assumed.
- State and device-change callbacks carry no data; they appear only as callbacks that are or are not forwarded.
- The other requests of the server (backend names, default parameters, volume, thread promotion, enumeration beyond its handles), the client context, thread start-up, logging and the test programs: they add no protocol.
