/** The event-stream session of one connection, as a state machine over values.

    The session's loop runs concurrently with producers that enqueue events,
    with the owner that disposes of the session and with the cancellation of
    the hosting connection.  Here that concurrency is made sequential: each
    iteration of the loop consumes one Tick of a schedule, which says what the
    environment did while the loop slept in its 10 ms delay, whether the
    transport delivered the chunk the iteration wrote, and what the
    environment did after the dequeue, up to the next test of the loop
    condition.  PollLoop is the loop, EventLoop the whole handler including
    its header setup and its finally block; the class in sse_connection.dfy
    is proved to behave exactly as they say. */
module SseSession {
  import opened MessageProtocol
  import opened Http

  // ---------------------------------------------------------------------
  // The delivered-chunk counter is a C# long incremented without overflow
  // checking, so it wraps from the largest long to the smallest.

  const MinLong: int := -0x8000_0000_0000_0000
  const MaxLong: int := 0x7FFF_FFFF_FFFF_FFFF
  const LongModulus: int := 0x1_0000_0000_0000_0000

  predicate IsLong(x: int) {
    MinLong <= x <= MaxLong
  }

  /** The long that the mathematical integer x denotes in two's complement. */
  function WrapLong(x: int): (r: int)
    ensures IsLong(r)
    ensures IsLong(x) ==> r == x
  {
    (x - MinLong) % LongModulus + MinLong
  }

  /** The value of a long after `++`: one more, except that the largest long
      wraps to the smallest. */
  function IncLong(x: int): int {
    if x == MaxLong then MinLong else x + 1
  }

  /** `++` on a long is addition modulo 2^64: incrementing the long that x denotes
      gives the long that x + 1 denotes. */
  lemma IncLongWraps(x: int)
    ensures IncLong(WrapLong(x)) == WrapLong(x + 1)
  {
  }

  // ---------------------------------------------------------------------
  // The session's state and what the environment can do to it.

  /** The fields of a session: its outbound queue, its delivered-chunk counter,
      its stop flag, the state of its cancellation token, and its completion flag. */
  datatype Session = Session(queue: seq<Event>, index: int, stopping: bool, cancelled: bool, done: bool)

  /** What happens to a session while its loop is suspended. */
  datatype EnvAction =
    | Produce(e: Event)  // a producer enqueues an event
    | Dispose            // the owner enters DisposeAsync, which sets the stop flag
    | Cancel             // the connection's cancellation token fires

  /** A freshly constructed session. */
  function Initial(cancelled: bool): Session {
    Session([], 0, false, cancelled, false)
  }

  /** One action of the environment; none of them touches the counter or the
      completion flag. */
  function ApplyEnv(s: Session, a: EnvAction): Session {
    match a
    case Produce(e) => s.(queue := s.queue + [e])
    case Dispose => s.(stopping := true)
    case Cancel => s.(cancelled := true)
  }

  function ApplyAll(s: Session, acts: seq<EnvAction>): Session
    decreases |acts|
  {
    if acts == [] then s else ApplyEnv(ApplyAll(s, acts[..|acts| - 1]), acts[|acts| - 1])
  }

  /** The events that producers enqueue during acts, in order. */
  function Produced(acts: seq<EnvAction>): seq<Event>
    decreases |acts|
  {
    if acts == [] then []
    else Produced(acts[..|acts| - 1]) + (if acts[|acts| - 1].Produce? then [acts[|acts| - 1].e] else [])
  }

  /** The environment only appends to the queue and never touches the counter or the
      completion flag. */
  lemma {:induction false} ApplyAllQueue(s: Session, acts: seq<EnvAction>)
    ensures ApplyAll(s, acts).queue == s.queue + Produced(acts)
    ensures ApplyAll(s, acts).index == s.index && ApplyAll(s, acts).done == s.done
    decreases |acts|
  {
    if acts != [] {
      ApplyAllQueue(s, acts[..|acts| - 1]);
    }
  }

  /** The environment raises the stop flag exactly when the owner disposes, and the
      cancellation flag exactly when the token fires; it never lowers either. */
  lemma {:induction false} ApplyAllFlags(s: Session, acts: seq<EnvAction>)
    ensures ApplyAll(s, acts).stopping <==> s.stopping || Dispose in acts
    ensures ApplyAll(s, acts).cancelled <==> s.cancelled || Cancel in acts
    decreases |acts|
  {
    if acts != [] {
      var init := acts[..|acts| - 1];
      ApplyAllFlags(s, init);
      assert acts == init + [acts[|acts| - 1]];
    }
  }

  /** Disposing twice leaves the flags as disposing once. */
  lemma DisposeIdempotent(s: Session)
    ensures ApplyEnv(ApplyEnv(s, Dispose), Dispose) == ApplyEnv(s, Dispose)
    ensures ApplyEnv(s, Dispose).stopping && ApplyEnv(s, Dispose).done == s.done
  {
  }

  // ---------------------------------------------------------------------
  // The polling loop.

  /** What the environment and the transport do during one iteration of the loop. */
  datatype Tick = Tick(whileWaiting: seq<EnvAction>, sendDelivered: bool, afterward: seq<EnvAction>)

  /** How the loop ended: its condition became false, cancellation was seen after the
      delay, a chunk write threw, or the schedule ran out while the loop still ran. */
  datatype Exit = LoopTest | CancelObserved | SendFailed | Unfinished

  /** The end of one iteration: the session, the event sent as a chunk (if any), the
      event taken from the queue whose write threw (if any), the events producers
      enqueued meanwhile, and how the iteration left the loop (None: it did not). */
  datatype Iteration = Iteration(s: Session, sent: seq<Event>, lost: seq<Event>,
                                 produced: seq<Event>, leave: Option<Exit>)

  /** One iteration of the loop, entered with the loop condition true: the delay, the
      cancellation check after it, the attempt to dequeue, the write and the increment. */
  function Iterate(s: Session, t: Tick): Iteration {
    var woke := ApplyAll(s, t.whileWaiting);
    if woke.cancelled then
      Iteration(woke, [], [], Produced(t.whileWaiting), Some(CancelObserved))
    else if woke.queue == [] then
      Iteration(ApplyAll(woke, t.afterward), [], [], Produced(t.whileWaiting) + Produced(t.afterward), None)
    else
      var e := woke.queue[0];
      var taken := woke.(queue := woke.queue[1..]);
      if !t.sendDelivered then
        Iteration(taken, [], [e], Produced(t.whileWaiting), Some(SendFailed))
      else
        Iteration(ApplyAll(taken.(index := IncLong(taken.index)), t.afterward), [e], [],
                  Produced(t.whileWaiting) + Produced(t.afterward), None)
  }

  /** One iteration takes at most one event: it either sends it or loses it when its
      write throws, and it leaves the loop only on seeing cancellation or on a
      throwing write, having sent nothing. */
  lemma IterateTakesAtMostOne(s: Session, t: Tick)
    ensures var it := Iterate(s, t);
            |it.sent| + |it.lost| <= 1
            && (it.lost != [] <==> it.leave == Some(SendFailed))
            && (it.leave.Some? ==> it.sent == [] && it.leave.value in {CancelObserved, SendFailed})
  {
  }

  /** The event an iteration takes is the head of the queue: the queue before it,
      followed by what producers enqueued during it, is the event taken followed by
      the queue after it. */
  lemma IterateTakesHead(s: Session, t: Tick)
    ensures var it := Iterate(s, t);
            s.queue + it.produced == it.sent + it.lost + it.s.queue
  {
    var woke := ApplyAll(s, t.whileWaiting);
    var pw, pa := Produced(t.whileWaiting), Produced(t.afterward);
    ApplyAllQueue(s, t.whileWaiting);
    if woke.cancelled {
    } else if woke.queue == [] {
      ApplyAllQueue(woke, t.afterward);
      Regroup(s.queue, pw, pa, [], woke.queue, ApplyAll(woke, t.afterward).queue);
    } else {
      var e := woke.queue[0];
      var taken := woke.(queue := woke.queue[1..]);
      assert woke.queue == [e] + taken.queue;
      if t.sendDelivered {
        var counted := taken.(index := IncLong(taken.index));
        ApplyAllQueue(counted, t.afterward);
        Regroup(s.queue, pw, pa, [e], taken.queue, ApplyAll(counted, t.afterward).queue);
      }
    }
  }

  /** One iteration counts the event it sends, leaves the completion flag alone and
      never lowers the stop or cancellation flags.  If it carries on, a stop or
      cancellation that came during it makes the loop test fail. */
  lemma IterateKeepsFlags(s: Session, t: Tick)
    ensures var it := Iterate(s, t);
            it.s.index == (if it.sent == [] then s.index else IncLong(s.index))
            && it.s.done == s.done
            && (s.stopping ==> it.s.stopping) && (s.cancelled ==> it.s.cancelled)
            && (it.leave == Some(CancelObserved) ==> it.s.cancelled)
            && (it.leave.None? && Halts(t) ==> !Running(it.s))
  {
    var woke := ApplyAll(s, t.whileWaiting);
    ApplyAllQueue(s, t.whileWaiting);
    ApplyAllFlags(s, t.whileWaiting);
    if !woke.cancelled {
      if woke.queue == [] {
        ApplyAllQueue(woke, t.afterward);
        ApplyAllFlags(woke, t.afterward);
      } else {
        var taken := woke.(queue := woke.queue[1..]);
        ApplyAllQueue(taken.(index := IncLong(taken.index)), t.afterward);
        ApplyAllFlags(taken.(index := IncLong(taken.index)), t.afterward);
      }
    }
  }

  /** The end of a run of the loop: the session, the actions it made on the response,
      the events sent as chunks, the event taken from the queue whose write threw (if
      any), and the events producers enqueued meanwhile. */
  datatype LoopEnd = LoopEnd(s: Session, out: seq<Action>, delivered: seq<Event>,
                             lost: seq<Event>, produced: seq<Event>, exit: Exit)

  /** The condition of the loop. */
  predicate Running(s: Session) {
    !s.cancelled && !s.stopping
  }

  /** The run r preceded by iterations that carried on after sending `sent` while
      producers enqueued `produced`. */
  function Prepend(sent: seq<Event>, produced: seq<Event>, r: LoopEnd): LoopEnd {
    r.(out := Chunks(sent) + r.out, delivered := sent + r.delivered, produced := produced + r.produced)
  }

  /** The loop of the handler, run from session s over the given ticks. */
  function PollLoop(s: Session, ticks: seq<Tick>): LoopEnd
    decreases |ticks|
  {
    if !Running(s) then LoopEnd(s, [], [], [], [], LoopTest)
    else if ticks == [] then LoopEnd(s, [], [], [], [], Unfinished)
    else
      var it := Iterate(s, ticks[0]);
      if it.leave.Some? then LoopEnd(it.s, [], [], it.lost, it.produced, it.leave.value)
      else Prepend(it.sent, it.produced, PollLoop(it.s, ticks[1..]))
  }

  /** The chunk each delivered event is sent as, in order. */
  function Chunks(events: seq<Event>): (out: seq<Action>)
    ensures |out| == |events|
  {
    seq(|events|, i requires 0 <= i < |events| => SendChunk(Build(events[i])))
  }

  lemma ChunksAppend(a: seq<Event>, b: seq<Event>)
    ensures Chunks(a + b) == Chunks(a) + Chunks(b)
  {
  }

  /** Two stretches of carried-on iterations make one. */
  lemma PrependTwice(sent1: seq<Event>, produced1: seq<Event>, sent2: seq<Event>, produced2: seq<Event>, r: LoopEnd)
    ensures Prepend(sent1, produced1, Prepend(sent2, produced2, r)) == Prepend(sent1 + sent2, produced1 + produced2, r)
  {
  }

  /** The loop over the ticks that are left, after iterations that carried on, takes
      one more step when it is running and ends within those ticks: it carries on
      with the next tick, still ending within the ticks after it, or it leaves the
      loop by a way other than running out of ticks. */
  lemma PollLoopStep(s0: Session, ticks: seq<Tick>, left: seq<Tick>, sent: seq<Event>, produced: seq<Event>, s: Session)
    requires Running(s) && EndsWithin(s, left)
    requires PollLoop(s0, ticks) == Prepend(sent, produced, PollLoop(s, left))
    ensures left != []
    ensures var it := Iterate(s, left[0]);
            if it.leave.None? then
              PollLoop(s0, ticks) == Prepend(sent + it.sent, produced + it.produced, PollLoop(it.s, left[1..]))
              && EndsWithin(it.s, left[1..])
            else
              PollLoop(s0, ticks) == LoopEnd(it.s, Chunks(sent), sent, it.lost, produced + it.produced, it.leave.value)
              && it.leave.value != Unfinished
  {
    var it := Iterate(s, left[0]);
    IterateTakesAtMostOne(s, left[0]);
    if it.leave.None? {
      PrependTwice(sent, produced, it.sent, it.produced, PollLoop(it.s, left[1..]));
    }
  }

  /** The loop over the ticks that are left, after iterations that carried on, ends
      at once when its test fails. */
  lemma PollLoopTestFails(s0: Session, ticks: seq<Tick>, left: seq<Tick>, sent: seq<Event>, produced: seq<Event>, s: Session)
    requires !Running(s)
    requires PollLoop(s0, ticks) == Prepend(sent, produced, PollLoop(s, left))
    ensures PollLoop(s0, ticks) == LoopEnd(s, Chunks(sent), sent, [], produced, LoopTest)
  {
  }

  /** The loop sends as chunks exactly the events it delivers, in the order it takes
      them; at most one event is lost, and only when a write threw. */
  lemma {:induction false} PollLoopSendsDelivered(s: Session, ticks: seq<Tick>)
    ensures PollLoop(s, ticks).out == Chunks(PollLoop(s, ticks).delivered)
    ensures |PollLoop(s, ticks).lost| <= 1
    ensures PollLoop(s, ticks).lost != [] <==> PollLoop(s, ticks).exit == SendFailed
    decreases |ticks|
  {
    if Running(s) && ticks != [] {
      var it := Iterate(s, ticks[0]);
      IterateTakesAtMostOne(s, ticks[0]);
      if it.leave.None? {
        PollLoopSendsDelivered(it.s, ticks[1..]);
        ChunksAppend(it.sent, PollLoop(it.s, ticks[1..]).delivered);
      }
    }
  }

  /** The loop takes events in FIFO order: the queue it started with, followed by
      what producers enqueued, is what it delivered, then the event whose write
      threw, then what is still queued. */
  lemma {:induction false} PollLoopIsFifo(s: Session, ticks: seq<Tick>)
    ensures s.queue + PollLoop(s, ticks).produced
         == PollLoop(s, ticks).delivered + PollLoop(s, ticks).lost + PollLoop(s, ticks).s.queue
    decreases |ticks|
  {
    if Running(s) && ticks != [] {
      var it := Iterate(s, ticks[0]);
      IterateTakesHead(s, ticks[0]);
      IterateTakesAtMostOne(s, ticks[0]);
      if it.leave.None? {
        var rest := PollLoop(it.s, ticks[1..]);
        PollLoopIsFifo(it.s, ticks[1..]);
        assert it.sent + it.lost == it.sent;
        Regroup(s.queue, it.produced, rest.produced, it.sent, it.s.queue, rest.delivered + rest.lost + rest.s.queue);
      }
    }
  }

  lemma Regroup<T>(q: seq<T>, p1: seq<T>, p2: seq<T>, d: seq<T>, q1: seq<T>, tail: seq<T>)
    requires q + p1 == d + q1 && q1 + p2 == tail
    ensures q + (p1 + p2) == d + tail
  {
    assert q + (p1 + p2) == (q + p1) + p2;
  }

  /** The counter rises by exactly one per chunk sent, each rise a long `++`. */
  lemma {:induction false} PollLoopCountsChunks(s: Session, ticks: seq<Tick>)
    ensures PollLoop(s, ticks).s.index == AddLong(s.index, |PollLoop(s, ticks).delivered|)
    decreases |ticks|
  {
    if Running(s) && ticks != [] {
      var it := Iterate(s, ticks[0]);
      IterateKeepsFlags(s, ticks[0]);
      IterateTakesAtMostOne(s, ticks[0]);
      if it.leave.None? {
        var rest := PollLoop(it.s, ticks[1..]);
        PollLoopCountsChunks(it.s, ticks[1..]);
        if it.sent != [] {
          AddLongShift(s.index, |rest.delivered|);
        }
      }
    }
  }

  /** The result of n increments of the long x. */
  function AddLong(x: int, n: nat): int {
    if n == 0 then x else IncLong(AddLong(x, n - 1))
  }

  lemma {:induction false} AddLongShift(x: int, n: nat)
    ensures AddLong(IncLong(x), n) == AddLong(x, n + 1)
  {
    if n > 0 {
      AddLongShift(x, n - 1);
    }
  }

  /** n increments of a long are the addition of n modulo 2^64. */
  lemma {:induction false} AddLongWraps(x: int, n: nat)
    requires IsLong(x)
    ensures AddLong(x, n) == WrapLong(x + n)
  {
    if n > 0 {
      AddLongWraps(x, n - 1);
      IncLongWraps(x + n - 1);
    }
  }

  /** The loop never writes the completion flag and never lowers the stop or
      cancellation flags; when it ends by its own test the session is no longer
      running, and when it ends on seeing cancellation the token has fired. */
  lemma {:induction false} PollLoopKeepsFlags(s: Session, ticks: seq<Tick>)
    ensures PollLoop(s, ticks).s.done == s.done
    ensures s.stopping ==> PollLoop(s, ticks).s.stopping
    ensures s.cancelled ==> PollLoop(s, ticks).s.cancelled
    ensures PollLoop(s, ticks).exit == LoopTest ==> !Running(PollLoop(s, ticks).s)
    ensures PollLoop(s, ticks).exit == CancelObserved ==> PollLoop(s, ticks).s.cancelled
    decreases |ticks|
  {
    if Running(s) && ticks != [] {
      IterateKeepsFlags(s, ticks[0]);
      var it := Iterate(s, ticks[0]);
      if it.leave.None? {
        PollLoopKeepsFlags(it.s, ticks[1..]);
      }
    }
  }

  /** Once a dispose or a cancellation arrives, no later tick is ever used: the pass
      under way is the last, so nothing that comes after it is dequeued or sent. */
  lemma {:induction false} NothingAfterHalt(s: Session, ticks: seq<Tick>, k: nat)
    requires k < |ticks| && Halts(ticks[k])
    ensures PollLoop(s, ticks) == PollLoop(s, ticks[..k + 1])
    decreases k
  {
    var upto := ticks[..k + 1];
    assert upto[0] == ticks[0];
    if Running(s) {
      var it := Iterate(s, ticks[0]);
      IterateKeepsFlags(s, ticks[0]);
      if it.leave.None? {
        if k > 0 {
          assert ticks[1..][k - 1] == ticks[k];
          NothingAfterHalt(it.s, ticks[1..], k - 1);
          assert ticks[1..][..k] == upto[1..];
        }
      }
    }
  }

  /** An iteration that finds the queue empty, with nothing happening meanwhile, sends
      nothing and changes nothing: the loop goes on exactly as before it. */
  lemma EmptyPollIsNoOp(s: Session, t: Tick, rest: seq<Tick>)
    requires Running(s) && s.queue == []
    requires t.whileWaiting == [] && t.afterward == []
    ensures PollLoop(s, [t] + rest) == PollLoop(s, rest)
  {
  }

  /** Cancellation during the delay ends the loop before anything is taken from the
      queue or sent. */
  lemma CancelWhileWaitingTakesNothing(s: Session, t: Tick, rest: seq<Tick>)
    requires Running(s) && Cancel in t.whileWaiting
    ensures PollLoop(s, [t] + rest).exit == CancelObserved
    ensures PollLoop(s, [t] + rest).out == []
    ensures PollLoop(s, [t] + rest).delivered == [] && PollLoop(s, [t] + rest).lost == []
    ensures PollLoop(s, [t] + rest).s.queue == s.queue + Produced(t.whileWaiting)
  {
    assert ([t] + rest)[0] == t;
    ApplyAllQueue(s, t.whileWaiting);
    ApplyAllFlags(s, t.whileWaiting);
  }

  /** A dispose that arrives during the delay does not stop the iteration that is
      under way: that iteration may still take and send one event, and then the
      loop test ends the loop. */
  lemma DisposeWhileWaitingTakesAtMostOne(s: Session, t: Tick, rest: seq<Tick>)
    requires Running(s) && Dispose in t.whileWaiting
    ensures |PollLoop(s, [t] + rest).delivered| + |PollLoop(s, [t] + rest).lost| <= 1
    ensures PollLoop(s, [t] + rest).exit != Unfinished
  {
    assert ([t] + rest)[0] == t && ([t] + rest)[1..] == rest;
    IterateTakesAtMostOne(s, t);
    IterateKeepsFlags(s, t);
  }

  /** Some tick of the schedule disposes of the session or cancels it. */
  predicate StopsWithin(ticks: seq<Tick>) {
    exists k :: 0 <= k < |ticks| && Halts(ticks[k])
  }

  /** The loop from session s ends within the ticks: by its test, on seeing
      cancellation, or on a throwing write, before the ticks run out. */
  predicate EndsWithin(s: Session, ticks: seq<Tick>) {
    PollLoop(s, ticks).exit != Unfinished
  }

  predicate Halts(t: Tick) {
    Dispose in t.whileWaiting || Cancel in t.whileWaiting
    || Dispose in t.afterward || Cancel in t.afterward
  }

  /** A loop whose schedule eventually disposes or cancels ends within it. */
  lemma {:induction false} PollLoopEnds(s: Session, ticks: seq<Tick>)
    requires StopsWithin(ticks)
    ensures PollLoop(s, ticks).exit != Unfinished
    decreases |ticks|
  {
    if Running(s) {
      var it := Iterate(s, ticks[0]);
      IterateKeepsFlags(s, ticks[0]);
      if it.leave.None? && !Halts(ticks[0]) {
        var k :| 0 <= k < |ticks| && Halts(ticks[k]);
        assert k > 0 && Halts(ticks[1..][k - 1]);
        PollLoopEnds(it.s, ticks[1..]);
      }
    }
  }

  // ---------------------------------------------------------------------
  // The whole handler: header setup, the loop, and the finally block.

  /** The headers of an event stream, then the switch to chunked transfer. */
  const StreamHeaders: seq<Action> := [
    AddHeader("Content-Type", "text/event-stream"),
    AddHeader("Cache-Control", "no-cache"),
    AddHeader("Connection", "keep-alive"),
    SetChunkedTransfer(true)
  ]

  /** The ticks of the loop, and whether the transport delivers the final chunk. */
  datatype Schedule = Schedule(ticks: seq<Tick>, finalDelivered: bool)

  /** The end of the handler: the session, every action it made on the response, and
      the end of its loop. */
  datatype HandlerEnd = HandlerEnd(s: Session, out: seq<Action>, loop: LoopEnd)

  /** The close event's chunk, which ends the response. */
  function CloseChunk(): Action {
    SendFinalChunk(Build(Close))
  }

  /** The handler of one connection.  Whichever way the loop ends, the finally block
      sends the close event as the final chunk; only if that write succeeds is the
      completion flag set, since a throwing write leaves the finally block early. */
  function EventLoop(s: Session, sched: Schedule): HandlerEnd {
    var r := PollLoop(s, sched.ticks);
    if r.exit == Unfinished then HandlerEnd(r.s, StreamHeaders + r.out, r)
    else if sched.finalDelivered then HandlerEnd(r.s.(done := true), StreamHeaders + r.out + [CloseChunk()], r)
    else HandlerEnd(r.s, StreamHeaders + r.out, r)
  }

  /** Every chunk the handler sends comes after all the stream headers and the switch
      to chunked transfer, which are made once, first. */
  lemma HeadersBeforeChunks(s: Session, sched: Schedule)
    ensures |EventLoop(s, sched).out| >= 4 && EventLoop(s, sched).out[..4] == StreamHeaders
    ensures forall i :: 4 <= i < |EventLoop(s, sched).out| ==>
              EventLoop(s, sched).out[i].SendChunk? || EventLoop(s, sched).out[i].SendFinalChunk?
  {
    var r := PollLoop(s, sched.ticks);
    PollLoopSendsDelivered(s, sched.ticks);
  }

  /** The data chunks of the handler are the delivered events, in order. */
  lemma HandlerSendsInOrder(s: Session, sched: Schedule)
    ensures var h := EventLoop(s, sched);
            h.out[4..] == Chunks(h.loop.delivered) + (if |h.out| > 4 + |h.loop.delivered| then [CloseChunk()] else [])
  {
    PollLoopSendsDelivered(s, sched.ticks);
    var h := EventLoop(s, sched);
    assert h.out[4..] == h.out[|StreamHeaders|..];
  }

  /** Whichever way the loop ends, the close event's chunk is sent exactly once, as
      the very last action, after every data chunk, when the transport takes it; the
      completion flag becomes true exactly when it has been sent. */
  lemma FinalChunkLast(s: Session, sched: Schedule)
    requires !s.done
    ensures var h := EventLoop(s, sched);
            h.loop.exit != Unfinished && sched.finalDelivered ==> h.out[|h.out| - 1] == CloseChunk()
    ensures var h := EventLoop(s, sched);
            forall i :: 0 <= i < |h.out| && h.out[i].SendFinalChunk? ==> i == |h.out| - 1
    ensures var h := EventLoop(s, sched);
            (exists i :: 0 <= i < |h.out| && h.out[i].SendFinalChunk?) <==> h.loop.exit != Unfinished && sched.finalDelivered
    ensures var h := EventLoop(s, sched);
            h.s.done <==> h.loop.exit != Unfinished && sched.finalDelivered
  {
    var r := PollLoop(s, sched.ticks);
    PollLoopSendsDelivered(s, sched.ticks);
    PollLoopKeepsFlags(s, sched.ticks);
    var h := EventLoop(s, sched);
    if h.loop.exit != Unfinished && sched.finalDelivered {
      assert h.out[|h.out| - 1].SendFinalChunk?;
    }
  }

  /** The handler's counter ends as its start plus the number of delivered chunks,
      wrapped to a long. */
  lemma HandlerCountsChunks(s: Session, sched: Schedule)
    requires IsLong(s.index)
    ensures EventLoop(s, sched).s.index == WrapLong(s.index + |EventLoop(s, sched).loop.delivered|)
  {
    PollLoopCountsChunks(s, sched.ticks);
    AddLongWraps(s.index, |PollLoop(s, sched.ticks).delivered|);
  }

  /** A dispose that comes while three events wait in the queue lets the current
      iteration send the first of them and then ends the stream: the other two are
      never delivered, and the close chunk follows the one data chunk. */
  lemma DisposeLeavesQueuedEvents(e1: Event, e2: Event, e3: Event)
    ensures var h := EventLoop(Session([e1, e2, e3], 0, false, false, false),
                               Schedule([Tick([Dispose], true, [])], true));
            h.out == StreamHeaders + [SendChunk(Build(e1)), CloseChunk()]
            && h.s.queue == [e2, e3] && h.s.index == 1 && h.s.done
  {
  }
}
