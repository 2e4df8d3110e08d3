# SSEConnection: the Server-Sent Events session of ChatTwo's web interface

ChatTwo serves its chat to browsers over HTTP. Each browser tab that listens for
updates holds one `SSEConnection`:

- producers enqueue events on its `OutboundQueue`;
- `HandleEventLoop` runs the response:
  - it sets the event-stream headers and switches to chunked transfer;
  - every 10 ms it takes at most one event from the queue, writes it as one chunk and counts it in `Index`;
  - it stops when the hosting connection's `Token` is cancelled or when `Stopping` is raised;
  - in its `finally` block it writes the close event as the final chunk and raises `Done`;
- `DisposeAsync` raises `Stopping` and then polls `Done` every 100 ms, at most ten times.

The model has four modules, one per file:

- `MessageProtocol` (message_protocol.dfy): the events and their wire frames. The frames are a stand-in, described under "Left out".
- `Http` (http.dfy): the slice of the response object the handler uses. It is a class with a ghost log of what reached the client.
- `SseSession` (session.dfy): the session as a state machine over values.
  - `Iterate` is one pass of the loop.
  - `PollLoop` is the loop.
  - `EventLoop` is the whole handler.
  - Every property of the loop is proved about these functions.
- `SseConnection` (sse_connection.dfy): the `SSEConnection` class itself, with the fields of the C# class. Each method is proved to change the fields and the response log exactly as the functions of `SseSession` say.

## How the concurrency is modelled

The loop runs concurrently with three other parties:

- producers that enqueue;
- the owner that calls `DisposeAsync`;
- the host that cancels the token.

The model makes this sequential. Each pass of the loop consumes one `Tick`, which records:

- what the environment did during the 10 ms delay;
- whether the transport delivered the chunk the pass wrote;
- what the environment did between the dequeue and the next loop test.

A `Schedule` is the ticks of a run plus the transport's fate for the final chunk. A write that fails stands for the exception that `SendChunk` or `SendFinalChunk` throws. It adds nothing to the response log. When a pass's write throws, the loop is left at once, so the environment actions recorded for the rest of that tick are not applied.

The loop's `long` counter `Index` wraps from the largest long to the smallest on `++`. The model writes this out:

- `IncLong` is one `++`;
- `AddLong` is n of them;
- `AddLongWraps` proves that n of them equal addition modulo 2^64.

## Model

| member | source | states |
|---|---|---|
| Http.HttpResponse.AddHeader | ChatTwo/Http/SSEConnection.cs:25-27 | adding a header appends exactly that header to what the client sees |
| Http.HttpResponse.SetChunkedTransfer | ChatTwo/Http/SSEConnection.cs:29 | switching on chunked transfer is recorded once, in order |
| Http.HttpResponse.SendChunk | ChatTwo/Http/SSEConnection.cs:39 | a chunk reaches the client exactly when the transport delivers it; otherwise the write reports failure and the client sees nothing |
| Http.HttpResponse.SendFinalChunk | ChatTwo/Http/SSEConnection.cs:54 | the final chunk reaches the client exactly when the transport delivers it; otherwise the write reports failure |
| SseSession.IncLong | ChatTwo/Http/SSEConnection.cs:40 | models `Index++` on a long: one more, and the largest long wraps to the smallest; its meaning is stated by `IncLongWraps` and `AddLongWraps` |
| SseSession.ApplyEnv | ChatTwo/Http/SSEConnection.cs:14 | models one action from outside the loop: a producer's enqueue on the queue (line 14), the `Stopping = true` of a dispose (line 62), or the token firing; its effect is stated by `ApplyAllQueue`, `ApplyAllFlags` and `DisposeIdempotent` |
| SseSession.IncLongWraps | ChatTwo/Http/SSEConnection.cs:9 | `++` on a long is increment modulo 2^64: incrementing the long that x denotes gives the long that x + 1 denotes |
| SseSession.AddLongShift | ChatTwo/Http/SSEConnection.cs:40 | one increment followed by n more is n + 1 increments |
| SseSession.AddLongWraps | ChatTwo/Http/SSEConnection.cs:40 | n increments of a long are the addition of n wrapped to a long |
| SseSession.ApplyAllQueue | ChatTwo/Http/SSEConnection.cs:14 | producers only append to the queue, in the order they enqueue; the counter and the completion flag are left alone |
| SseSession.ApplyAllFlags | ChatTwo/Http/SSEConnection.cs:60-62 | the stop flag is raised exactly when the owner disposes, and the cancellation exactly when the token fires; neither is ever lowered |
| SseSession.DisposeIdempotent | ChatTwo/Http/SSEConnection.cs:62 | disposing twice leaves the session as disposing once: the stop flag is raised and the completion flag is left alone |
| SseSession.Iterate | ChatTwo/Http/SSEConnection.cs:32-40 | models one pass of the loop body: the delay, the cancellation check, the dequeue, the write and `Index++`; its properties are `IterateTakesAtMostOne`, `IterateTakesHead` and `IterateKeepsFlags` |
| SseSession.IterateTakesAtMostOne | ChatTwo/Http/SSEConnection.cs:30-41 | one pass takes at most one event, which it either sends or loses to a throwing write; it leaves the loop only on seeing cancellation or on a throwing write, and then it has sent nothing |
| SseSession.IterateTakesHead | ChatTwo/Http/SSEConnection.cs:36-39 | the event a pass takes is the head of the queue: the queue before the pass plus what was enqueued during it equals the event taken plus the queue after it |
| SseSession.IterateKeepsFlags | ChatTwo/Http/SSEConnection.cs:32-40 | a pass increments the counter once if it sent an event and otherwise leaves it alone; it never writes the completion flag or lowers the stop or cancellation flags; a pass that carries on after a stop or cancellation makes the loop test fail |
| SseSession.PollLoop | ChatTwo/Http/SSEConnection.cs:30-41 | models the `while` loop over a schedule of passes; its properties are the `PollLoop…` lemmas, `NothingAfterHalt` and `EmptyPollIsNoOp` |
| SseSession.PollLoopStep | ChatTwo/Http/SSEConnection.cs:30-41 | a running loop that ends within the ticks left takes one more pass: either it carries on, still ending within the ticks after that pass, or it leaves for a reason other than running out of ticks |
| SseSession.PollLoopTestFails | ChatTwo/Http/SSEConnection.cs:30 | the loop ends at once, with nothing more sent or lost, when its test fails |
| SseSession.PollLoopSendsDelivered | ChatTwo/Http/SSEConnection.cs:36-39 | the loop's output is exactly one chunk per delivered event, in order; at most one event is lost, and that happens only when a write threw |
| SseSession.PollLoopIsFifo | ChatTwo/Http/SSEConnection.cs:36-39 | FIFO: the starting queue followed by everything enqueued during the loop equals, in order, the delivered events, then the lost event, then the events still queued |
| SseSession.PollLoopCountsChunks | ChatTwo/Http/SSEConnection.cs:39-40 | the counter ends as its start plus one long increment per delivered chunk |
| SseSession.PollLoopKeepsFlags | ChatTwo/Http/SSEConnection.cs:30-41 | the loop never writes the completion flag and never lowers the stop or cancellation flags; when it ends by its own test the session is no longer running, and when it ends on seeing cancellation the token has fired |
| SseSession.NothingAfterHalt | ChatTwo/Http/SSEConnection.cs:30-41 | once a dispose or a cancellation arrives in some pass, no later pass ever runs: the loop over the whole schedule equals the loop cut off after that pass, so nothing that comes later is dequeued or sent |
| SseSession.EmptyPollIsNoOp | ChatTwo/Http/SSEConnection.cs:36-37 | a pass that finds the queue empty, with nothing happening meanwhile, leaves the rest of the loop exactly as if it had not happened |
| SseSession.CancelWhileWaitingTakesNothing | ChatTwo/Http/SSEConnection.cs:32-34 | cancellation during the delay ends the loop before anything is dequeued or sent, leaving the queue plus new arrivals intact |
| SseSession.DisposeWhileWaitingTakesAtMostOne | ChatTwo/Http/SSEConnection.cs:30-40 | a dispose during the delay still lets the pass under way take and send at most one event, and then the loop ends |
| SseSession.PollLoopEnds | ChatTwo/Http/SSEConnection.cs:30 | a loop whose schedule eventually disposes or cancels ends within that schedule |
| SseSession.EventLoop | ChatTwo/Http/SSEConnection.cs:21-58 | models the whole handler: headers, the loop, and the `finally` block; its properties are `HeadersBeforeChunks`, `HandlerSendsInOrder` and `FinalChunkLast` |
| SseSession.HeadersBeforeChunks | ChatTwo/Http/SSEConnection.cs:25-29 | the three event-stream headers and chunked transfer come first, once; everything after them is a chunk |
| SseSession.HandlerSendsInOrder | ChatTwo/Http/SSEConnection.cs:25-54 | after the headers the handler writes exactly the delivered events, in order, followed by the close chunk if that was written |
| SseSession.FinalChunkLast | ChatTwo/Http/SSEConnection.cs:51-57 | the close event is written as the final chunk at most once and always as the very last action; it is written and `Done` is raised exactly when the loop has ended and the transport took the final chunk |
| SseSession.HandlerCountsChunks | ChatTwo/Http/SSEConnection.cs:39-40 | after the handler, the counter is its start plus the number of delivered chunks, wrapped to a long |
| SseSession.DisposeLeavesQueuedEvents | ChatTwo/Http/SSEConnection.cs:30-57 | with three events queued and a dispose during the first delay, the handler sends only the first event and then the close chunk; the other two stay queued and the counter is 1 |
| SseConnection.CancellationToken.Cancel | ChatTwo/Http/SSEConnection.cs:11 | cancelling the token makes the request visible |
| SseConnection.SSEConnection.constructor | ChatTwo/Http/SSEConnection.cs:16-19 | a new connection has an empty queue, a zero counter, both flags down, and the given token |
| SseConnection.SSEConnection.Enqueue | ChatTwo/Http/SSEConnection.cs:14 | a producer's event goes to the back of the queue and nothing else changes |
| SseConnection.SSEConnection.TryDequeue | ChatTwo/Http/SSEConnection.cs:36 | an empty queue yields nothing and stays empty; otherwise the front event is removed and returned, and the rest of the queue is kept in order |
| SseConnection.SSEConnection.Suspend | ChatTwo/Http/SSEConnection.cs:32 | while the loop is suspended the fields change exactly as the environment's actions say, and the counter is untouched |
| SseConnection.SSEConnection.Poll | ChatTwo/Http/SSEConnection.cs:32-40 | one pass of the loop changes the fields, writes to the response and leaves the loop exactly as `Iterate` says, and keeps the counter a long |
| SseConnection.SSEConnection.PollUntilStopped | ChatTwo/Http/SSEConnection.cs:30-41 | the loop changes the fields and writes to the response exactly as `PollLoop` says, and it ends before its schedule runs out |
| SseConnection.SSEConnection.HandleEventLoop | ChatTwo/Http/SSEConnection.cs:21-58 | the handler changes the fields and writes to the response exactly as `EventLoop` says: headers, the loop, then the close chunk followed by `Done`; `Index` ends as its start plus the number of delivered chunks, wrapped to a long |
| SseConnection.SSEConnection.DisposeAsync | ChatTwo/Http/SSEConnection.cs:60-74 | it raises `Stopping` and changes nothing else. It returns at once if `Done` was already set. It makes at most ten checks of `Done`, sleeping 100 ms after each check that does not see it. It returns early only when it saw `Done`, and every check before that saw `Done` unset |

## Left out

- Timing: the 10 ms delay and the 100 ms sleeps are not measured. The delay is the point in each tick where the environment acts; `DisposeAsync` reports the time it slept as a number.
- Interleavings: the environment acts only during the delay and between the dequeue and the next loop test. Other interleavings of the same shared fields are not explored.
- HandleEventLoop: the method requires that the loop end within its schedule: by its test after a dispose or a cancellation, on seeing cancellation after the delay, or on a throwing write. A schedule that does none of these would keep the C# loop running forever; `PollLoop` still describes every finite prefix of such a run, through its `Unfinished` exit. `PollLoopEnds` shows that a schedule with a dispose or a cancellation in some tick always ends.
- DisposeAsync: the handler runs concurrently and may raise `Done` while the dispose waits. Its reading of `Done` at the k-th check is the parameter `doneBy(k)`, or the field when it was already set. The handler itself is not run inside the dispose.
- The two `catch` blocks are modelled only by how the loop ends: `CancelObserved` for a cancelled delay or return, `SendFailed` for a throwing write. The error log line is not part of this model.
- The header additions are taken not to throw.
- `Plugin.Log` calls are not part of this model.
- The event classes of ChatTwo/Http/MessageProtocol are not part of this model. `Build` stands in for their rendering. It uses the event-stream framing of section 9.2 of the WHATWG HTML Living Standard: an `event:` line, a `data:` line and a blank line. The close event is the frame named `close` with empty data. The lemmas `BuildEndsWithBlankLine`, `ParseBuild` and `BuildDistinguishes` are properties of this stand-in and of a client-side `Parse`, not of ChatTwo's own rendering. `BuildDistinguishes` holds only for well-formed events, and the session does not require events to be well formed: a data event named `close` with empty data renders exactly like the close frame (`CloseNamedDataCollides`).
- Poll, HandleEventLoop: a write is assumed either to succeed or to throw. The web server's `SendChunk` and `SendFinalChunk` are not part of this model. The C# code ignores the value they return, so a write that reported failure without throwing would still be counted, the loop would go on, and `Done` would be raised. The model has no such outcome.
- Text is a sequence of characters. The UTF-8 encoding of chunks by the web server is not modelled.
- ChatTwo/PluginUi.cs, the caller that creates, feeds and disposes of connections, is not part of this model.
- Three behaviours of the code a reader might not expect, each modelled as written:
  - A stop does not drain the queue: events still queued when the loop test sees `Stopping` are never sent (`DisposeLeavesQueuedEvents`).
  - The final-chunk write in the `finally` block is not guarded. If it throws, `Done` is never raised, so a later `DisposeAsync` waits its full second (`FinalChunkLast`).
  - An event whose write throws has already been dequeued and is lost (`PollLoopSendsDelivered`, `PollLoopIsFifo`).
