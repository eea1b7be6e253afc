/**
  BlockingReaderWriterQueue: the queue and the semaphore together. The producer signals after each
  enqueue, the consumer dequeues or pops after each successful wait, and every step of either part
  interleaves with every step of the other thread.
 */
module BlockingQueue {
  import opened Wrappers
  import opened SpscQueue
  import opened SpscInvariant
  import opened Semaphore
  import SpscProducer
  import SpscConsumer
  import SpscRuns

  datatype ProducerAt = PReady | PEnqueuing | PSignalling | PPosting

  datatype ConsumerAt = CReady | CWaiting | CDequeuing | CPeeking

  /** try_dequeue, wait_dequeue, wait_dequeue_timed (with its timeout), pop and peek. */
  datatype Call = CallTryDequeue | CallWaitDequeue | CallWaitTimed(timeout: int) | CallPop | CallPeek

  datatype Blocking<T> = Blocking(
    q: State<T>,
    sema: Sema,
    at: ProducerAt,
    cat: ConsumerAt,
    call: Call,
    ok: bool,        // what the last finished consumer call returned
    asserted: bool,  // every assert(success) held so far
    base: nat)       // auxiliary: how many elements were dequeued when the last consumer call began

  /** Before the first call. */
  function Idle<T>(q: State<T>): Blocking<T> {
    Blocking(q, New(0), PReady, CReady, CallPop, false, true, |q.dequeued|)
  }

  datatype BlockingEvent<T> =
    | CallEnqueue(elem: T, canAlloc: bool)
    | ProducerGoes(allocates: bool)
    | CallConsume(call: Call)
    | ConsumerGoes(inTime: bool)

  function Kind(call: Call): WaitKind {
    match call
    case CallWaitDequeue => Wait(-1)
    case CallWaitTimed(timeout) => Wait(timeout)
    case _ => TryWait
  }

  function ProducerGoing<T>(b: Blocking<T>, allocates: bool): Blocking<T> {
    match b.at
    case PReady => b
    case PEnqueuing =>
      var q := ProducerStep(b.q, allocates);
      b.(q := q, at := if !q.p.pc.PIdle? then PEnqueuing else if q.p.returned then PSignalling else PReady)
    case PSignalling =>
      var sema := SemaStep(b.sema, Signal(1));
      b.(sema := sema, at := if sema.s.SPost? then PPosting else PReady)
    case PPosting => b.(sema := SemaStep(b.sema, SignallerMoves), at := PReady)
  }

  function ConsumerGoing<T>(b: Blocking<T>, inTime: bool): Blocking<T> {
    match b.cat
    case CReady => b
    case CWaiting =>
      var sema := SemaStep(b.sema, WaiterMoves(inTime));
      if !sema.w.WIdle? then b.(sema := sema)
      else if sema.waited then
        b.(sema := sema, q := BeginConsumeStep(b.q, if b.call.CallPop? then Pop else TryDequeue), cat := CDequeuing)
      else if b.call.CallWaitDequeue? then b.(sema := SemaStep(sema, BeginWait(Kind(b.call))))  // while (!sema->wait());
      else b.(sema := sema, cat := CReady, ok := false)
    case CDequeuing =>
      var q := ConsumerStep(b.q);
      if !q.c.pc.CIdle? then b.(q := q)
      else b.(q := q, cat := CReady, ok := true, asserted := b.asserted && q.c.returned)
    case CPeeking =>
      var q := ConsumerStep(b.q);
      if !q.c.pc.CIdle? then b.(q := q) else b.(q := q, cat := CReady, ok := q.c.returned)
  }

  function BlockingStep<T>(b: Blocking<T>, e: BlockingEvent<T>): Blocking<T> {
    match e
    case CallEnqueue(x, canAlloc) =>
      if b.at.PReady? then b.(q := BeginEnqueueStep(b.q, x, canAlloc), at := PEnqueuing) else b
    case ProducerGoes(allocates) => ProducerGoing(b, allocates)
    case CallConsume(call) =>
      if !b.cat.CReady? then b
      else if call.CallPeek? then b.(q := BeginConsumeStep(b.q, Peek), cat := CPeeking, call := call, base := |b.q.dequeued|)
      else b.(sema := SemaStep(b.sema, BeginWait(Kind(call))), cat := CWaiting, call := call, base := |b.q.dequeued|)
    case ConsumerGoes(inTime) => ConsumerGoing(b, inTime)
  }

  function BlockingRun<T>(b: Blocking<T>, events: seq<BlockingEvent<T>>): Blocking<T>
    decreases |events|
  {
    if events == [] then b else BlockingStep(BlockingRun(b, events[..|events| - 1]), events[|events| - 1])
  }

  // ---------------------------------------------------------------------------------------------

  /** Units given are elements enqueued and signalled; units taken are elements dequeued or about to be. */
  ghost predicate Books<T>(b: Blocking<T>) {
    && b.sema.given + (if b.at.PSignalling? then 1 else 0) == |b.q.enqueued|
    && b.sema.taken == |b.q.dequeued| + (if b.cat.CDequeuing? then 1 else 0)
  }

  function OpOf(call: Call): ConsumerOp {
    if call.CallPop? then Pop else if call.CallPeek? then Peek else TryDequeue
  }

  /** A consumer call takes one element if it returns true and is no peek, and no element otherwise. */
  ghost predicate CallOk<T>(b: Blocking<T>) {
    && |b.q.dequeued| == b.base + (if b.cat.CReady? && b.ok && !b.call.CallPeek? then 1 else 0)
    && (b.cat.CWaiting? ==> b.sema.kind == Kind(b.call) && !b.call.CallPeek?)
    && (b.cat.CDequeuing? || b.cat.CPeeking? ==> b.q.c.op == OpOf(b.call) && (b.call.CallPeek? <==> b.cat.CPeeking?))
    && (b.cat.CReady? && (b.ok || b.call.CallPeek?) ==> b.q.c.op == OpOf(b.call) && b.q.c.calls > 0 && b.q.c.returned == b.ok)
  }

  ghost predicate BlockingInv<T>(b: Blocking<T>) {
    && Inv(b.q) && SemaInv(b.sema) && b.asserted && Books(b) && CallOk(b)
    && (b.at.PEnqueuing? <==> !b.q.p.pc.PIdle?) && (b.at.PPosting? <==> b.sema.s.SPost?)
    && (b.cat.CWaiting? <==> !b.sema.w.WIdle?) && (b.cat.CDequeuing? || b.cat.CPeeking? <==> !b.q.c.pc.CIdle?)
    && (b.cat.CDequeuing? ==> !b.q.c.op.Peek? && !b.q.c.sawEmpty && b.q.c.calls > 0)
    && (b.cat.CPeeking? ==> b.q.c.op.Peek?)
  }

  /** While a unit is held, the queue is not empty. */
  lemma UnitMeansElement<T>(b: Blocking<T>)
    requires BlockingInv(b) && b.cat.CDequeuing?
    ensures |Queue(b.q.m)| > 0
  {
    hide ProducerOk, ConsumerOk, BlocksOk, RingOk, FillOk, SizesOk;
  }

  lemma ProducerGoingKeeps<T>(b: Blocking<T>, a: bool)
    requires BlockingInv(b)
    ensures BlockingInv(ProducerGoing(b, a))
  {
    hide Inv, ProducerStep;
    if b.at.PEnqueuing? {
      SpscRuns.EnqueueCounts(b.q, a);
      SpscProducer.ProducerKeeps(b.q, a);
    }
  }

  lemma WaitingKeeps<T>(b: Blocking<T>, inTime: bool)
    requires BlockingInv(b) && b.cat.CWaiting?
    ensures BlockingInv(ConsumerGoing(b, inTime))
  {
    hide Inv, WaiterStep;
    WaitCounts(b.sema, inTime);
    FailsOnlyWithoutUnits(b.sema, inTime);
    SemaStepKeeps(SemaStep(b.sema, WaiterMoves(inTime)), BeginWait(Kind(b.call)));
    SpscConsumer.Begins(b.q, if b.call.CallPop? then Pop else TryDequeue);
  }

  lemma DequeuingKeeps<T>(b: Blocking<T>, inTime: bool)
    requires BlockingInv(b) && b.cat.CDequeuing?
    ensures BlockingInv(ConsumerGoing(b, inTime))
  {
    hide Inv, ConsumerStep, SemaInv;
    SpscRuns.DequeueCounts(b.q);
    UnitMeansElement(b);
    SpscConsumer.ConsumerKeeps(b.q);
    var q := ConsumerStep(b.q);
    if q.c.pc.CIdle? && !q.c.returned {
      EmptyHanded(q);
    }
  }

  lemma ConsumerGoingKeeps<T>(b: Blocking<T>, inTime: bool)
    requires BlockingInv(b)
    ensures BlockingInv(ConsumerGoing(b, inTime))
  {
    hide Inv, ConsumerStep, SemaInv, SemaStep;
    match b.cat
    case CReady =>
    case CWaiting => WaitingKeeps(b, inTime);
    case CDequeuing => DequeuingKeeps(b, inTime);
    case CPeeking =>
      SpscRuns.DequeueCounts(b.q);
      SpscConsumer.ConsumerKeeps(b.q);
  }

  lemma EmptyHanded<T>(s: State<T>)
    requires Inv(s) && s.c.pc.CIdle? && s.c.calls > 0 && !s.c.returned
    ensures s.c.sawEmpty
  {
  }

  lemma BlockingStepKeeps<T>(b: Blocking<T>, e: BlockingEvent<T>)
    requires BlockingInv(b)
    ensures BlockingInv(BlockingStep(b, e))
  {
    hide Inv, ProducerGoing, ConsumerGoing;
    match e
    case CallEnqueue(x, canAlloc) => if b.at.PReady? { SpscProducer.Begins(b.q, x, canAlloc); }
    case ProducerGoes(allocates) => ProducerGoingKeeps(b, allocates);
    case CallConsume(call) => if b.cat.CReady? { SpscConsumer.Begins(b.q, Peek); }
    case ConsumerGoes(inTime) => ConsumerGoingKeeps(b, inTime);
  }

  lemma {:induction false} BlockingRunKeeps<T>(b: Blocking<T>, events: seq<BlockingEvent<T>>)
    requires BlockingInv(b)
    ensures BlockingInv(BlockingRun(b, events))
    decreases |events|
  {
    hide BlockingInv, BlockingStep;
    if events != [] {
      BlockingRunKeeps(b, events[..|events| - 1]);
      BlockingStepKeeps(BlockingRun(b, events[..|events| - 1]), events[|events| - 1]);
    }
  }

  /**
    Once a wait succeeds, the inner dequeue or pop succeeds: every assert(success) holds on every
    interleaving. The blocking queue is first in, first out as well, and between calls the semaphore
    counts exactly the queued elements.
   */
  lemma WaitedDequeueSucceeds<T>(q: State<T>, size: nat, maxBlockSize: nat, rounded: nat, events: seq<BlockingEvent<T>>)
    requires SpscRuns.Constructed(q, size, maxBlockSize, rounded) && size >= 1
    ensures var b := BlockingRun(Idle(q), events);
            && b.asserted && !b.q.p.pc.PCrashed? && !b.q.c.pc.CCrashed?
            && b.q.enqueued == b.q.dequeued + Queue(b.q.m)
            && (b.at.PReady? && b.cat.CReady? ==> b.sema.count == |Queue(b.q.m)|)
  {
    SpscRuns.FreshOk(q, size, maxBlockSize, rounded);
    BlockingRunKeeps(Idle(q), events);
  }


  /** An element that was signalled has its post, or its post is about to be made, when the consumer sleeps. */
  lemma SleeperHasPost<T>(b: Blocking<T>)
    requires BlockingInv(b) && b.sema.w.WKernel?
    ensures |Queue(b.q.m)| > (if b.at.PSignalling? then 1 else 0) <==> Posts(b.sema) == 1
    ensures |Queue(b.q.m)| > 0 && (b.at.PReady? || b.at.PEnqueuing?) ==> b.sema.kernel == 1
  {
    hide ProducerOk, ConsumerOk, BlocksOk, RingOk, FillOk, SizesOk, Queue;
  }

  /** On every run: no consumer sleeps on a queue that holds an element, unless the producer is still about to wake it. */
  lemma NoSleepOnElements<T>(q: State<T>, size: nat, maxBlockSize: nat, rounded: nat, events: seq<BlockingEvent<T>>)
    requires SpscRuns.Constructed(q, size, maxBlockSize, rounded) && size >= 1
    ensures var b := BlockingRun(Idle(q), events);
            && (b.sema.w.WKernel? && |Queue(b.q.m)| > 0 ==> b.sema.kernel == 1 || b.at.PSignalling? || b.at.PPosting?)
            && (b.sema.w.WKernel? && b.sema.kernel > 0 ==>
                  var b' := BlockingStep(b, ConsumerGoes(true)); b'.cat.CDequeuing? && |Queue(b.q.m)| > 0)
  {
    hide BlockingRun, Inv, Queue;
    SpscRuns.FreshOk(q, size, maxBlockSize, rounded);
    var b0 := Idle(q);
    BlockingRunKeeps(b0, events);
    var b := BlockingRun(b0, events);
    if b.sema.w.WKernel? {
      SleeperHasPost(b);
    }
  }

  /**
    On every run a consumer call that returned true took one element, or for peek found the front element, and gave it
    to its caller unless it was pop; one that returned false took nothing.
   */
  lemma ReturnsTellWhatHappened<T>(q: State<T>, size: nat, maxBlockSize: nat, rounded: nat, events: seq<BlockingEvent<T>>)
    requires SpscRuns.Constructed(q, size, maxBlockSize, rounded) && size >= 1
    ensures var b := BlockingRun(Idle(q), events);
            && (b.cat.CReady? && b.ok && !b.call.CallPeek? ==>
                  |b.q.dequeued| == b.base + 1 && (b.call.CallPop? || b.q.c.result == Some(b.q.dequeued[b.base])))
            && (!(b.cat.CReady? && b.ok && !b.call.CallPeek?) ==> |b.q.dequeued| == b.base)
            && (b.cat.CReady? && b.call.CallPeek? ==>
                  if b.ok then Queue(b.q.m) != [] && b.q.c.result == Some(Queue(b.q.m)[0]) else b.q.c.sawEmpty)
  {
    hide BlockingRun, Queue, RingOk, SizesOk, BlocksOk, FillOk, ProducerOk;
    SpscRuns.FreshOk(q, size, maxBlockSize, rounded);
    BlockingRunKeeps(Idle(q), events);
  }

  /**
    Giving up: wait_dequeue never does; try_dequeue and pop do at their one look at the count, a timed wait only after its
    time is over, and all of them only while no element that was signalled is queued.
   */
  lemma GivesUpOnlyWhenEmpty<T>(q: State<T>, size: nat, maxBlockSize: nat, rounded: nat, events: seq<BlockingEvent<T>>, inTime: bool)
    requires SpscRuns.Constructed(q, size, maxBlockSize, rounded) && size >= 1
    ensures var b := BlockingRun(Idle(q), events);
            var b' := BlockingStep(b, ConsumerGoes(inTime));
            && (b.cat.CWaiting? && b'.cat.CReady? ==>
                  && !b'.ok && !b.call.CallWaitDequeue? && |Queue(b.q.m)| == (if b.at.PSignalling? then 1 else 0)
                  && (if b.call.CallWaitTimed? then b.sema.w.WUndo? else b.sema.w.WTryLoad?))
            && (b.sema.w.WKernel? ==> b.call.CallWaitDequeue? || (b.call.CallWaitTimed? && b.call.timeout != 0))
            && (b.call.CallWaitTimed? && b.cat.CWaiting? && b'.sema.w.WUndo? ==>
                  b.call.timeout == 0 || !inTime || b.sema.w.WRetake? || b.sema.w.WKernelTry? || b.sema.w.WUndo?)
  {
    hide BlockingRun, Queue, RingOk, SizesOk, BlocksOk, FillOk, ProducerOk, ConsumerOk, WaiterStep;
    SpscRuns.FreshOk(q, size, maxBlockSize, rounded);
    BlockingRunKeeps(Idle(q), events);
    var b := BlockingRun(Idle(q), events);
    if b.cat.CWaiting? {
      FailsOnlyWithoutUnits(b.sema, inTime);
    }
  }

  /** What the consumer was called for stays until the next call. */
  lemma CallStays<T>(b: Blocking<T>, e: BlockingEvent<T>)
    requires !e.CallConsume?
    ensures BlockingStep(b, e).call == b.call && BlockingStep(b, e).base == b.base
  {
    hide ProducerStep, ConsumerStep, SemaStep, BeginEnqueueStep, BeginConsumeStep;
  }

  lemma {:induction false} CallStaysOn<T>(b: Blocking<T>, events: seq<BlockingEvent<T>>)
    requires forall i :: 0 <= i < |events| ==> !events[i].CallConsume?
    ensures BlockingRun(b, events).call == b.call && BlockingRun(b, events).base == b.base
    decreases |events|
  {
    hide BlockingStep;
    if events != [] {
      CallStaysOn(b, events[..|events| - 1]);
      CallStays(BlockingRun(b, events[..|events| - 1]), events[|events| - 1]);
    }
  }

  /** From the beginning of a consumer call to its end it takes one element if it returns true and is no peek, and none otherwise. */
  lemma EachCallTakesOne<T>(b: Blocking<T>, call: Call, during: seq<BlockingEvent<T>>)
    requires BlockingInv(b) && b.cat.CReady? && forall i :: 0 <= i < |during| ==> !during[i].CallConsume?
    requires BlockingRun(BlockingStep(b, CallConsume(call)), during).cat.CReady?
    ensures var b' := BlockingRun(BlockingStep(b, CallConsume(call)), during);
            |b'.q.dequeued| == |b.q.dequeued| + if b'.ok && !call.CallPeek? then 1 else 0
  {
    var b1 := BlockingStep(b, CallConsume(call));
    CallBegins(b, call);
    BlockingStepKeeps(b, CallConsume(call));
    hide BlockingStep, BlockingRun, Inv, Books, SemaInv;
    CallStaysOn(b1, during);
    BlockingRunKeeps(b1, during);
  }

  lemma CallBegins<T>(b: Blocking<T>, call: Call)
    requires b.cat.CReady?
    ensures var b1 := BlockingStep(b, CallConsume(call)); b1.call == call && b1.base == |b.q.dequeued|
  {
    hide SemaStep, BeginConsumeStep, ProducerGoing, ConsumerGoing;
  }
}
