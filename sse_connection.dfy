/** The Server-Sent Events connection object: the outbound queue, the
    delivered-chunk counter, the stop and completion flags and the
    cancellation token of one client, with the event loop that serves the
    client and the dispose that stops it.  Each method is proved to change
    the object exactly as the value model in session.dfy says. */
module SseConnection {
  import opened MessageProtocol
  import opened Http
  import opened SseSession

  /** The cancellation signal of the hosting connection. */
  class CancellationToken {
    var IsCancellationRequested: bool

    constructor (requested: bool)
      ensures IsCancellationRequested == requested
    {
      IsCancellationRequested := requested;
    }

    method Cancel()
      modifies this
      ensures IsCancellationRequested
    {
      IsCancellationRequested := true;
    }
  }

  class SSEConnection {
    var Index: int
    var Stopping: bool
    const Token: CancellationToken
    var Done: bool
    var OutboundQueue: seq<Event>

    /** The counter holds a long. */
    ghost predicate Valid()
      reads this
    {
      IsLong(Index)
    }

    /** The connection's fields as a session value. */
    ghost function State(): Session
      reads this, Token
    {
      Session(OutboundQueue, Index, Stopping, Token.IsCancellationRequested, Done)
    }

    constructor (token: CancellationToken)
      ensures Valid() && Token == token
      ensures State() == Initial(token.IsCancellationRequested)
    {
      Token := token;
      Index := 0;
      Stopping := false;
      Done := false;
      OutboundQueue := [];
    }

    /** A producer adds an event at the back of the queue. */
    method Enqueue(e: Event)
      modifies this
      ensures State() == ApplyEnv(old(State()), Produce(e))
    {
      OutboundQueue := OutboundQueue + [e];
    }

    /** Takes the event at the front of the queue, if there is one. */
    method TryDequeue() returns (next: Option<Event>)
      modifies this
      ensures old(OutboundQueue) == [] ==> next == None && OutboundQueue == []
      ensures old(OutboundQueue) != [] ==>
                next == Some(old(OutboundQueue)[0]) && OutboundQueue == old(OutboundQueue)[1..]
      ensures State() == old(State()).(queue := OutboundQueue)
    {
      if OutboundQueue == [] {
        next := None;
      } else {
        next := Some(OutboundQueue[0]);
        OutboundQueue := OutboundQueue[1..];
      }
    }

    /** What producers, the owner and the connection do while the loop is suspended. */
    method Suspend(acts: seq<EnvAction>)
      modifies this, Token
      ensures State() == ApplyAll(old(State()), acts)
      ensures Index == old(Index)
    {
      ApplyAllQueue(State(), acts);
      for k := 0 to |acts|
        invariant State() == ApplyAll(old(State()), acts[..k])
      {
        assert acts[..k + 1][..k] == acts[..k];
        match acts[k]
        case Produce(e) => Enqueue(e);
        case Dispose => Stopping := true;
        case Cancel => Token.Cancel();
      }
      assert acts[..|acts|] == acts;
    }

    /** One iteration of the event loop, entered with the loop condition true: the
        10 ms delay, the cancellation check, the attempt to dequeue, and the write and
        count of the event it took.  `leave` says how the iteration left the loop:
        on seeing cancellation, when the write threw, or (None) not at all. */
    method Poll(ctx: HttpResponse, tick: Tick) returns (leave: Option<Exit>)
      requires Valid()
      modifies this, Token, ctx
      ensures Valid()
      ensures State() == Iterate(old(State()), tick).s
      ensures leave == Iterate(old(State()), tick).leave
      ensures ctx.Log == old(ctx.Log) + Chunks(Iterate(old(State()), tick).sent)
    {
      Suspend(tick.whileWaiting);  // the 10 ms delay
      if Token.IsCancellationRequested {
        return Some(CancelObserved);
      }
      var next := TryDequeue();
      if next.None? {
        Suspend(tick.afterward);
        return None;
      }
      var ok := ctx.SendChunk(Build(next.value), tick.sendDelivered);
      if !ok {
        // the write threw: the event is gone and the finally block runs
        return Some(SendFailed);
      }
      Index := IncLong(Index);  // Index++
      Suspend(tick.afterward);
      leave := None;
    }

    /** The loop of the handler: one poll per tick while the connection is neither
        cancelled nor disposed, leaving early on a return or an exception. */
    method PollUntilStopped(ctx: HttpResponse, ticks: seq<Tick>)
      requires Valid() && EndsWithin(State(), ticks)
      modifies this, Token, ctx
      ensures Valid()
      ensures State() == PollLoop(old(State()), ticks).s
      ensures ctx.Log == old(ctx.Log) + PollLoop(old(State()), ticks).out
      ensures PollLoop(old(State()), ticks).exit != Unfinished
    {
      ghost var s0, log0 := State(), ctx.Log;
      var left := ticks;
      ghost var sent: seq<Event> := [];
      ghost var produced: seq<Event> := [];
      ghost var exit := LoopTest;
      while !Token.IsCancellationRequested && !Stopping
        invariant Valid()
        invariant ctx.Log == log0 + Chunks(sent)
        invariant PollLoop(s0, ticks) == Prepend(sent, produced, PollLoop(State(), left))
        invariant EndsWithin(State(), left)
        invariant exit == LoopTest
        decreases |left|
      {
        ghost var before := State();
        PollLoopStep(s0, ticks, left, sent, produced, before);
        ghost var it := Iterate(before, left[0]);
        var leave := Poll(ctx, left[0]);
        if leave.Some? {
          // a return or an exception: the finally block runs
          produced, exit := produced + it.produced, leave.value;
          break;
        }
        ChunksAppend(sent, it.sent);
        sent, produced := sent + it.sent, produced + it.produced;
        left := left[1..];
      }
      if exit == LoopTest {
        PollLoopTestFails(s0, ticks, left, sent, produced, State());
      }
    }

    /** Serves one client: the stream headers, then one event per poll until the
        connection is cancelled or the session is disposed, and on every way out
        the close event as the final chunk followed by the completion flag. */
    method HandleEventLoop(ctx: HttpResponse, sched: Schedule)
      requires Valid() && EndsWithin(State(), sched.ticks)
      modifies this, Token, ctx
      ensures Valid()
      ensures State() == EventLoop(old(State()), sched).s
      ensures ctx.Log == old(ctx.Log) + EventLoop(old(State()), sched).out
      ensures EventLoop(old(State()), sched).loop.exit != Unfinished
      ensures Index == WrapLong(old(Index) + |EventLoop(old(State()), sched).loop.delivered|)
    {
      ghost var s0, log0 := State(), ctx.Log;
      ctx.AddHeader("Content-Type", "text/event-stream");
      ctx.AddHeader("Cache-Control", "no-cache");
      ctx.AddHeader("Connection", "keep-alive");
      ctx.SetChunkedTransfer(true);
      assert ctx.Log == log0 + StreamHeaders;

      PollUntilStopped(ctx, sched.ticks);
      ghost var r := PollLoop(s0, sched.ticks);

      // finally: the close event ends the response, then the completion flag is set
      var closed := ctx.SendFinalChunk(Build(Close), sched.finalDelivered);
      if closed {
        Done := true;
      }
      ghost var final := if closed then [CloseChunk()] else [];
      Regroup3(log0, StreamHeaders, r.out, final);
      HandlerCountsChunks(s0, sched);
    }

    /** Asks the loop to stop and waits for it: one check of the completion flag
        per 100 ms, at most ten checks.  `doneBy(k)` says whether the concurrently
        running loop has set the completion flag by the k-th check; `waited` is
        the time spent sleeping, in milliseconds. */
    method DisposeAsync(doneBy: nat -> bool) returns (waited: int)
      modifies this
      ensures State() == ApplyEnv(old(State()), Dispose)
      ensures 0 <= waited <= 1000 && waited % 100 == 0
      ensures old(Done) ==> waited == 0
      ensures waited < 1000 ==> Done || doneBy(waited / 100)
      ensures forall k :: 0 <= k < waited / 100 ==> !Done && !doneBy(k)
    {
      Stopping := true;
      var timeout := 1000;
      var checks := 0;
      while timeout > 0
        invariant 0 <= timeout <= 1000 && timeout % 100 == 0
        invariant checks * 100 == 1000 - timeout
        invariant forall k :: 0 <= k < checks ==> !Done && !doneBy(k)
        invariant Done == old(Done) && (Done ==> checks == 0)
        decreases timeout
      {
        if Done || doneBy(checks) {
          break;
        }
        timeout := timeout - 100;
        checks := checks + 1;  // the 100 ms delay
      }
      waited := 1000 - timeout;
    }
  }

  lemma Regroup3<T>(a: seq<T>, b: seq<T>, c: seq<T>, d: seq<T>)
    ensures a + b + c + d == a + (b + c + d)
  {
  }
}
