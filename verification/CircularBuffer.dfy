/**
  BlockingReaderWriterCircularBuffer of 3rdparty/readerwriterqueue/readerwritercircularbuffer.h: a ring of
  slots between two semaphores, one counting free slots (the producer waits on it) and one counting
  items (the consumer waits on it). The two 64-bit positions wrap round.
 */
module CircularBuffer {
  import opened Wrappers
  import opened Modular
  import opened Bits
  import opened Semaphore

  datatype ProducerAt = PReady | PWaiting | PWriting | PSignalling | PPosting

  datatype ConsumerAt = CReady | CWaiting | CReading | CDestroying | CSignalling | CPosting | CPeeking

  /** The slots and the two positions; auxiliary: every element ever written, how many were destroyed, and those dequeued. */
  datatype Ring<T> = Ring(
    mask: nat,
    data: seq<Option<T>>,
    nextSlot: nat,
    nextItem: nat,
    written: seq<T>,
    destroyed: nat,
    dequeued: seq<T>)

  /**
    What the last finished enqueue returned, and the last finished dequeue or pop (false after peek); auxiliary: how
    many elements were written, and destroyed, when the last call of either side began.
   */
  datatype Returns = Returns(ok: bool, cok: bool, base: nat, cbase: nat)

  datatype Buffer<T> = Buffer(
    maxcap: nat,
    r: Ring<T>,
    slots: Sema,
    items: Sema,
    at: ProducerAt,
    item: Option<T>,
    forever: bool,       // the producer call is wait_enqueue
    cat: ConsumerAt,
    discard: bool,       // the consumer call is try_pop
    cforever: bool,      // the consumer call is wait_dequeue
    result: Option<T>,
    crashed: bool,       // constructed over a live element, or used raw memory
    done: Returns)

  datatype BufferEvent<T> =
    | CallEnqueue(item: T, kind: WaitKind, forever: bool)
    | ProducerGoes(inTime: bool)
    | CallDequeue(kind: WaitKind, forever: bool)
    | CallPop
    | CallPeek
    | ConsumerGoes(inTime: bool)

  function Writable<T>(r: Ring<T>): bool {
    And(r.nextSlot, r.mask) < |r.data| && r.data[And(r.nextSlot, r.mask)].None?
  }

  function Write<T>(r: Ring<T>, v: T): Ring<T>
    requires Writable(r)
  {
    r.(data := r.data[And(r.nextSlot, r.mask) := Some(v)], nextSlot := Wrapped(r.nextSlot + 1), written := r.written + [v])
  }

  /** The element at the consumer's position, if there is one. */
  function Head<T>(r: Ring<T>): Option<T> {
    if And(r.nextItem, r.mask) < |r.data| then r.data[And(r.nextItem, r.mask)] else None
  }

  function Destroy<T>(r: Ring<T>, v: T): Ring<T>
    requires Head(r).Some?
  {
    r.(data := r.data[And(r.nextItem, r.mask) := None], nextItem := Wrapped(r.nextItem + 1),
       destroyed := r.destroyed + 1, dequeued := r.dequeued + [v])
  }

  function ProducerGoing<T>(b: Buffer<T>, inTime: bool): Buffer<T> {
    match b.at
    case PReady => b
    case PWaiting =>
      var slots := SemaStep(b.slots, WaiterMoves(inTime));
      if !slots.w.WIdle? then b.(slots := slots)
      else if slots.waited then b.(slots := slots, at := PWriting)
      else if b.forever then b.(slots := SemaStep(slots, BeginWait(slots.kind)))  // while (!slots_->wait());
      else b.(slots := slots, at := PReady, done := b.done.(ok := false))
    case PWriting =>
      if Writable(b.r) && b.item.Some? then b.(r := Write(b.r, b.item.value), at := PSignalling)
      else b.(crashed := true)
    case PSignalling =>
      var items := SemaStep(b.items, Signal(1));
      b.(items := items, at := if items.s.SPost? then PPosting else PReady, done := b.done.(ok := true))
    case PPosting => b.(items := SemaStep(b.items, SignallerMoves), at := PReady)
  }

  function ConsumerGoing<T>(b: Buffer<T>, inTime: bool): Buffer<T> {
    match b.cat
    case CReady => b
    case CWaiting =>
      var items := SemaStep(b.items, WaiterMoves(inTime));
      if !items.w.WIdle? then b.(items := items)
      else if items.waited then b.(items := items, cat := if b.discard then CDestroying else CReading)
      else if b.cforever then b.(items := SemaStep(items, BeginWait(items.kind)))  // while (!items->wait());
      else b.(items := items, cat := CReady, done := b.done.(cok := false))
    case CReading =>
      if Head(b.r).Some? then b.(result := Head(b.r), cat := CDestroying) else b.(crashed := true)
    case CDestroying =>
      if Head(b.r).None? then b.(crashed := true)
      else
        var v := if !b.discard && b.result.Some? then b.result.value else Head(b.r).value;
        b.(r := Destroy(b.r, v), cat := CSignalling)
    case CSignalling =>
      var slots := SemaStep(b.slots, Signal(1));
      b.(slots := slots, cat := if slots.s.SPost? then CPosting else CReady, done := b.done.(cok := true))
    case CPosting => b.(slots := SemaStep(b.slots, SignallerMoves), cat := CReady)
    case CPeeking =>
      if b.items.count <= 0 then b.(result := None, cat := CReady, done := b.done.(cok := false))
      else if Head(b.r).Some? then b.(result := Head(b.r), cat := CReady, done := b.done.(cok := false))
      else b.(crashed := true)
  }

  function BufferStep<T>(b: Buffer<T>, e: BufferEvent<T>): Buffer<T> {
    match e
    case CallEnqueue(x, kind, forever) =>
      if b.at.PReady? then b.(slots := SemaStep(b.slots, BeginWait(kind)), at := PWaiting, item := Some(x), forever := forever, done := b.done.(base := |b.r.written|)) else b
    case ProducerGoes(inTime) => ProducerGoing(b, inTime)
    case CallDequeue(kind, forever) =>
      if b.cat.CReady? then b.(items := SemaStep(b.items, BeginWait(kind)), cat := CWaiting, discard := false, cforever := forever, done := b.done.(cbase := b.r.destroyed)) else b
    case CallPop =>
      if b.cat.CReady? then b.(items := SemaStep(b.items, BeginWait(TryWait)), cat := CWaiting, discard := true, cforever := false, done := b.done.(cbase := b.r.destroyed)) else b
    case CallPeek => if b.cat.CReady? then b.(cat := CPeeking, done := b.done.(cbase := b.r.destroyed)) else b
    case ConsumerGoes(inTime) => ConsumerGoing(b, inTime)
  }

  function BufferRun<T>(b: Buffer<T>, events: seq<BufferEvent<T>>): Buffer<T>
    decreases |events|
  {
    if events == [] then b else BufferStep(BufferRun(b, events[..|events| - 1]), events[|events| - 1])
  }

  /** The constructor: mask + 1 is the least power of two that is at least the capacity. */
  method Construct<T>(capacity: nat) returns (b: Buffer<T>)
    requires capacity < WORD / 2
    ensures BufferInv(b) && CallsOk(b) && b.maxcap == capacity && b.r.written == []
    ensures capacity >= 1 ==> IsLeastPow2(b.r.mask + 1, capacity) && |b.r.data| == b.r.mask + 1
  {
    hide Pow2, And;
    var rounded := CeilToPow2(capacity);
    var mask := if rounded == 0 then WORD - 1 else rounded - 1;
    b := Buffer(capacity, Ring(mask, seq(rounded, i => None), 0, 0, [], 0, []), New(capacity), New(0),
                PReady, None, false, CReady, false, false, None, false, Returns(false, false, 0, 0));
  }

  // ---------------------------------------------------------------------------------------------

  function Slot<T>(r: Ring<T>, k: nat): Option<T> {
    if |r.data| > 0 then r.data[Wrap(k, |r.data|)] else None
  }

  /** What the buffer holds, in order. */
  function Held<T>(r: Ring<T>): seq<T> {
    if r.destroyed <= |r.written| then r.written[r.destroyed..] else []
  }

  ghost predicate PositionsOk<T>(r: Ring<T>, maxcap: nat) {
    && r.nextSlot == Wrapped(|r.written|) && r.nextItem == Wrapped(r.destroyed)
    && r.destroyed <= |r.written| && r.dequeued == r.written[..r.destroyed]
    && (maxcap == 0 ==> r.written == [])
    && (maxcap > 0 ==> IsPow2(|r.data|) && r.mask == |r.data| - 1 && maxcap <= |r.data| <= WORD / 2)
  }

  /** Slots hold exactly the elements written and not yet destroyed. */
  ghost predicate SlotsOk<T>(r: Ring<T>) {
    && (forall k: nat :: r.destroyed <= k < |r.written| ==> Slot(r, k) == Some(r.written[k]))
    && (forall k: nat :: |r.written| <= k < r.destroyed + |r.data| ==> Slot(r, k) == None)
  }

  ghost predicate RingOk<T>(r: Ring<T>, maxcap: nat) {
    PositionsOk(r, maxcap) && (maxcap > 0 ==> SlotsOk(r))
  }

  /** Units of the two semaphores are free slots and items, less those a thread is working on. */
  ghost predicate Books<T>(b: Buffer<T>) {
    && b.slots.given + (if b.cat.CSignalling? then 1 else 0) == b.maxcap + b.r.destroyed
    && b.slots.taken == |b.r.written| + (if b.at.PWriting? then 1 else 0)
    && b.items.given + (if b.at.PSignalling? then 1 else 0) == |b.r.written|
    && b.items.taken == b.r.destroyed + (if b.cat.CReading? || b.cat.CDestroying? then 1 else 0)
  }

  ghost predicate BufferInv<T>(b: Buffer<T>) {
    && SemaInv(b.slots) && SemaInv(b.items) && Books(b) && RingOk(b.r, b.maxcap) && !b.crashed
    && (b.at.PWaiting? <==> !b.slots.w.WIdle?) && (b.at.PPosting? <==> b.items.s.SPost?)
    && (b.cat.CWaiting? <==> !b.items.w.WIdle?) && (b.cat.CPosting? <==> b.slots.s.SPost?)
    && (!b.at.PReady? ==> b.item.Some?)
    && (b.cat.CReading? ==> !b.discard)
    && (b.cat.CDestroying? && !b.discard ==> b.r.destroyed < |b.r.written| && b.result == Some(b.r.written[b.r.destroyed]))
  }

  /** The slot of the k-th element, through a 64-bit position that wraps round. */
  lemma SlotIndex(k: nat, n: nat)
    requires IsPow2(n) && n <= WORD / 2
    ensures And(Wrapped(k), n - 1) == Wrap(k, n)
  {
    hide And, Wrap, Pow2;
    var e: nat :| n == Pow2(e);
    MaskIsModulo(k % WORD, e);
    WrapIsModulo(k, n);
    Pow2At63();
    if e > 63 {
      Pow2Grows(64, e);
    }
    Pow2Sum(64 - e, e);
    Nested(k, Pow2(64 - e), n);
  }

  lemma Nested(k: nat, a: nat, n: nat)
    requires a > 0 && n > 0 && a * n > 0
    ensures (k % (a * n)) % n == k % n
  {
    var q, r := k / (a * n), k % (a * n);
    var q', r' := r / n, r % n;
    Recombine(k, q, a, n, r, q', r');
    RemainderIs(k, q * a + q', r', n);
  }

  lemma Recombine(k: nat, q: nat, a: nat, n: nat, r: nat, q': nat, r': nat)
    requires k == q * (a * n) + r && r == q' * n + r'
    ensures k == (q * a + q') * n + r'
  {
    assert q * (a * n) == (q * a) * n;
  }

  lemma TurnedSlot<T>(r: Ring<T>, k: nat)
    requires |r.data| > 0
    ensures Slot(r, k + |r.data|) == Slot(r, k)
  {
  }

  lemma SlotAfter<T>(r: Ring<T>, r': Ring<T>, at: nat, k: nat, v: Option<T>)
    requires |r.data| > 0 && r'.data == r.data[Wrap(at, |r.data|) := v] && at < k + |r.data| && k < at + |r.data|
    ensures Slot(r', k) == if k == at then v else Slot(r, k)
  {
    if k <= at { SameIndex(k, at, |r.data|); } else { SameIndex(at, k, |r.data|); }
  }

  lemma WriteKeeps<T>(r: Ring<T>, maxcap: nat, v: T)
    requires RingOk(r, maxcap) && maxcap > 0 && |r.written| < r.destroyed + |r.data|
    ensures Writable(r) && RingOk(Write(r, v), maxcap)
  {
    hide And, Wrap, IsPow2, Slot, Wrapped;
    SlotIndex(|r.written|, |r.data|);
    WrappedNext(|r.written|);
    assert Writable(r) by { WritableSlot(r, maxcap); }
    var r' := Write(r, v);
    WrittenSlots(r, r', v);
    hide SlotsOk;
    assert r'.written[..r'.destroyed] == r.written[..r.destroyed];
  }

  lemma WrittenSlots<T>(r: Ring<T>, r': Ring<T>, v: T)
    requires SlotsOk(r) && r.destroyed <= |r.written| < r.destroyed + |r.data|
    requires r'.data == r.data[Wrap(|r.written|, |r.data|) := Some(v)] && r'.written == r.written + [v] && r'.destroyed == r.destroyed
    ensures SlotsOk(r')
  {
    hide Wrap, Slot;
    forall k: nat | r.destroyed <= k < r.destroyed + |r.data|
      ensures Slot(r', k) == if k == |r.written| then Some(v) else Slot(r, k)
    {
      SlotAfter(r, r', |r.written|, k, Some(v));
    }
  }

  lemma WritableSlot<T>(r: Ring<T>, maxcap: nat)
    requires RingOk(r, maxcap) && maxcap > 0 && |r.written| < r.destroyed + |r.data|
    ensures Writable(r)
  {
    hide And, Wrap, IsPow2, Wrapped;
    SlotIndex(|r.written|, |r.data|);
    assert Slot(r, |r.written|) == None;
  }

  lemma HeadIs<T>(r: Ring<T>, maxcap: nat)
    requires RingOk(r, maxcap) && maxcap > 0 && r.destroyed < |r.written|
    ensures Head(r) == Some(r.written[r.destroyed]) && And(r.nextItem, r.mask) == Wrap(r.destroyed, |r.data|)
  {
    hide And, Wrap, IsPow2, Wrapped;
    SlotIndex(r.destroyed, |r.data|);
    assert Slot(r, r.destroyed) == Some(r.written[r.destroyed]);
  }

  lemma DestroyedSlots<T>(r: Ring<T>, r': Ring<T>)
    requires SlotsOk(r) && |r.data| > 0 && r.destroyed < |r.written| <= r.destroyed + |r.data|
    requires r'.data == r.data[Wrap(r.destroyed, |r.data|) := None] && r'.written == r.written && r'.destroyed == r.destroyed + 1
    ensures SlotsOk(r')
  {
    hide Wrap, Slot;
    forall k: nat | r.destroyed <= k < r.destroyed + |r.data|
      ensures Slot(r', k) == if k == r.destroyed then None else Slot(r, k)
    {
      SlotAfter(r, r', r.destroyed, k, None);
    }
    TurnedSlot(r', r.destroyed);
  }

  lemma DestroyKeeps<T>(r: Ring<T>, maxcap: nat)
    requires RingOk(r, maxcap) && maxcap > 0 && r.destroyed < |r.written| <= r.destroyed + |r.data|
    ensures Head(r).Some? && RingOk(Destroy(r, r.written[r.destroyed]), maxcap)
  {
    hide And, Wrap, IsPow2, SlotsOk, Wrapped;
    HeadIs(r, maxcap);
    WrappedNext(r.destroyed);
    DestroyedSlots(r, Destroy(r, r.written[r.destroyed]));
  }

  /** Never more than maxcap elements, and room for one more while the producer writes. */
  lemma NeverOverfull<T>(b: Buffer<T>)
    requires BufferInv(b)
    ensures |Held(b.r)| <= b.maxcap
    ensures b.at.PWriting? ==> |Held(b.r)| < b.maxcap
    ensures b.cat.CReading? || b.cat.CDestroying? || b.items.count > 0 ==> b.r.destroyed < |b.r.written|
  {
    hide And, Wrap, IsPow2, Slot;
  }

  lemma ProducerGoingKeeps<T>(b: Buffer<T>, inTime: bool)
    requires BufferInv(b)
    ensures BufferInv(ProducerGoing(b, inTime))
  {
    hide BufferInv, ProducerGoing;
    if b.at.PWriting? {
      WritingKeeps(b, inTime);
    } else if b.at.PWaiting? {
      SlotWaitKeeps(b, inTime);
    } else {
      ItemSignalKeeps(b, inTime);
    }
  }

  lemma WritingKeeps<T>(b: Buffer<T>, inTime: bool)
    requires BufferInv(b) && b.at.PWriting?
    ensures BufferInv(ProducerGoing(b, inTime))
  {
    hide RingOk, WaiterStep, SemaInv;
    WritingRoom(b);
    WriteKeeps(b.r, b.maxcap, b.item.value);
  }

  lemma SlotWaitKeeps<T>(b: Buffer<T>, inTime: bool)
    requires BufferInv(b) && b.at.PWaiting?
    ensures BufferInv(ProducerGoing(b, inTime))
  {
    hide RingOk, WaiterStep;
    WaitCounts(b.slots, inTime);
  }

  lemma ItemSignalKeeps<T>(b: Buffer<T>, inTime: bool)
    requires BufferInv(b) && !b.at.PWaiting? && !b.at.PWriting?
    ensures BufferInv(ProducerGoing(b, inTime))
  {
    hide RingOk, WaiterStep, Writable;
  }

  lemma WritingRoom<T>(b: Buffer<T>)
    requires BufferInv(b) && b.at.PWriting?
    ensures b.maxcap > 0 && b.r.destroyed <= |b.r.written| < b.r.destroyed + |b.r.data|
  {
    hide And, Wrap, IsPow2, Slot, SemaInv;
    NeverOverfull(b);
  }

  lemma ReadingElement<T>(b: Buffer<T>)
    requires BufferInv(b) && (b.cat.CReading? || b.cat.CDestroying? || b.items.count > 0)
    ensures b.maxcap > 0 && b.r.destroyed < |b.r.written| <= b.r.destroyed + |b.r.data|
  {
    hide And, Wrap, IsPow2, Slot, SemaInv;
    NeverOverfull(b);
  }

  lemma TakingKeeps<T>(b: Buffer<T>, inTime: bool)
    requires BufferInv(b) && (b.cat.CReading? || b.cat.CDestroying? || b.cat.CPeeking?)
    ensures BufferInv(ConsumerGoing(b, inTime))
  {
    hide RingOk, WaiterStep, Head, SemaInv;
    if !b.cat.CPeeking? || b.items.count > 0 {
      ReadingElement(b);
      HeadIs(b.r, b.maxcap);
      DestroyKeeps(b.r, b.maxcap);
    }
  }

  lemma ItemWaitKeeps<T>(b: Buffer<T>, inTime: bool)
    requires BufferInv(b) && b.cat.CWaiting?
    ensures BufferInv(ConsumerGoing(b, inTime))
  {
    hide RingOk, WaiterStep, Head;
    WaitCounts(b.items, inTime);
  }

  lemma SlotSignalKeeps<T>(b: Buffer<T>, inTime: bool)
    requires BufferInv(b) && (b.cat.CReady? || b.cat.CSignalling? || b.cat.CPosting?)
    ensures BufferInv(ConsumerGoing(b, inTime))
  {
    hide RingOk, WaiterStep, Head;
  }

  lemma ConsumerGoingKeeps<T>(b: Buffer<T>, inTime: bool)
    requires BufferInv(b)
    ensures BufferInv(ConsumerGoing(b, inTime))
  {
    hide BufferInv, ConsumerGoing;
    if b.cat.CReading? || b.cat.CDestroying? || b.cat.CPeeking? {
      TakingKeeps(b, inTime);
    } else if b.cat.CWaiting? {
      ItemWaitKeeps(b, inTime);
    } else {
      SlotSignalKeeps(b, inTime);
    }
  }

  lemma BufferStepKeeps<T>(b: Buffer<T>, e: BufferEvent<T>)
    requires BufferInv(b)
    ensures BufferInv(BufferStep(b, e))
  {
    hide RingOk, ProducerGoing, ConsumerGoing;
    match e
    case ProducerGoes(inTime) => ProducerGoingKeeps(b, inTime);
    case ConsumerGoes(inTime) => ConsumerGoingKeeps(b, inTime);
    case _ =>
  }

  lemma CapacityStays<T>(b: Buffer<T>, e: BufferEvent<T>)
    ensures BufferStep(b, e).maxcap == b.maxcap
  {
    hide WaiterStep, And, Head, Writable;
  }

  lemma {:induction false} BufferRunKeeps<T>(b: Buffer<T>, events: seq<BufferEvent<T>>)
    requires BufferInv(b)
    ensures BufferInv(BufferRun(b, events)) && BufferRun(b, events).maxcap == b.maxcap
    decreases |events|
  {
    hide BufferInv, BufferStep;
    if events != [] {
      BufferRunKeeps(b, events[..|events| - 1]);
      BufferStepKeeps(BufferRun(b, events[..|events| - 1]), events[|events| - 1]);
      CapacityStays(BufferRun(b, events[..|events| - 1]), events[|events| - 1]);
    }
  }

  /**
    First in, first out, never more than the capacity, and no slot reused while its element lives: on
    every interleaving, over any number of turns of the 64-bit positions.
   */
  lemma FifoWithinCapacity<T>(b0: Buffer<T>, events: seq<BufferEvent<T>>)
    requires BufferInv(b0)
    ensures var b := BufferRun(b0, events);
            && !b.crashed && b.r.written == b.r.dequeued + Held(b.r) && |Held(b.r)| <= b0.maxcap
            && (b.at.PReady? && b.cat.CReady? ==> b.items.count == |Held(b.r)| && b.slots.count == b0.maxcap - |Held(b.r)|)
  {
    hide BufferRun, And, Wrap, IsPow2, Slot;
    BufferRunKeeps(b0, events);
    NeverOverfull(BufferRun(b0, events));
  }

  /** peek shows the front element whenever the count of items says there is one. */
  lemma PeekShowsFront<T>(b: Buffer<T>, inTime: bool)
    requires BufferInv(b) && b.cat.CPeeking? && b.items.count > 0
    ensures Held(b.r) != [] && ConsumerGoing(b, inTime).result == Some(Held(b.r)[0])
  {
    hide And, Wrap, IsPow2, Slot;
    ReadingElement(b);
    HeadIs(b.r, b.maxcap);
  }

  /** Two live elements never share a slot. */
  lemma LiveSlotsDistinct<T>(b: Buffer<T>, j: nat, k: nat)
    requires BufferInv(b) && b.r.destroyed <= j < k < |b.r.written|
    ensures And(j % WORD, b.r.mask) != And(k % WORD, b.r.mask)
  {
    hide And, Wrap, IsPow2, Slot, SemaInv;
    NeverOverfull(b);
    SlotIndex(j, |b.r.data|);
    SlotIndex(k, |b.r.data|);
    SameIndex(j, k, |b.r.data|);
  }


  // ---------------------------------------------------------------------------------------------
  // False returns

  /**
    An enqueue that gives up, tried or timed out, does so at an instant when no slot is free, except for one that
    the consumer has emptied but not yet signalled.
   */
  lemma EnqueueFailsOnlyWhenFull<T>(b: Buffer<T>, inTime: bool)
    requires BufferInv(b) && b.at.PWaiting? && ProducerGoing(b, inTime).at.PReady?
    ensures |Held(b.r)| + (if b.cat.CSignalling? then 1 else 0) == b.maxcap && !b.forever
  {
    hide RingOk, Held;
    HeldCount(b.r, b.maxcap);
  }

  /** A dequeue or pop that gives up does so when nothing is held, except for one element not yet signalled. */
  lemma DequeueFailsOnlyWhenEmpty<T>(b: Buffer<T>, inTime: bool)
    requires BufferInv(b) && b.cat.CWaiting? && ConsumerGoing(b, inTime).cat.CReady?
    ensures |Held(b.r)| == (if b.at.PSignalling? then 1 else 0) && !b.cforever
  {
    hide RingOk, Held;
    HeldCount(b.r, b.maxcap);
  }

  lemma HeldCount<T>(r: Ring<T>, maxcap: nat)
    requires RingOk(r, maxcap)
    ensures r.destroyed <= |r.written| && |Held(r)| == |r.written| - r.destroyed
  {
    hide SlotsOk;
  }

  /** On every run: each call that gives up does so for this reason. */
  lemma FalseReturnsJustified<T>(b0: Buffer<T>, events: seq<BufferEvent<T>>, inTime: bool)
    requires BufferInv(b0)
    ensures var b := BufferRun(b0, events);
            && (b.at.PWaiting? && BufferStep(b, ProducerGoes(inTime)).at.PReady? ==>
                  |Held(b.r)| + (if b.cat.CSignalling? then 1 else 0) == b0.maxcap)
            && (b.cat.CWaiting? && BufferStep(b, ConsumerGoes(inTime)).cat.CReady? ==>
                  |Held(b.r)| == if b.at.PSignalling? then 1 else 0)
  {
    hide BufferRun, BufferInv, Held, ProducerGoing, ConsumerGoing;
    BufferRunKeeps(b0, events);
    var b := BufferRun(b0, events);
    if b.at.PWaiting? && ProducerGoing(b, inTime).at.PReady? {
      EnqueueFailsOnlyWhenFull(b, inTime);
    }
    if b.cat.CWaiting? && ConsumerGoing(b, inTime).cat.CReady? {
      DequeueFailsOnlyWhenEmpty(b, inTime);
    }
  }

  // ---------------------------------------------------------------------------------------------
  // What the calls return

  /** The producer call has written its element. */
  predicate HasWritten<T>(b: Buffer<T>) {
    b.at.PSignalling? || b.at.PPosting? || (b.at.PReady? && b.done.ok)
  }

  /** The consumer call has taken an element. */
  predicate HasTaken<T>(b: Buffer<T>) {
    b.cat.CSignalling? || b.cat.CPosting? || (b.cat.CReady? && b.done.cok)
  }

  ghost predicate WriteOk<T>(b: Buffer<T>) {
    && |b.r.written| == b.done.base + (if HasWritten(b) then 1 else 0) && (b.at.PPosting? ==> b.done.ok)
    && (HasWritten(b) ==> b.item == Some(b.r.written[b.done.base]))
  }

  ghost predicate TakeOk<T>(b: Buffer<T>) {
    && b.r.destroyed == |b.r.dequeued| == b.done.cbase + (if HasTaken(b) then 1 else 0) && (b.cat.CPosting? ==> b.done.cok)
    && (HasTaken(b) && !b.discard ==> b.result == Some(b.r.dequeued[b.done.cbase]))
  }

  ghost predicate CallsOk<T>(b: Buffer<T>) {
    WriteOk(b) && TakeOk(b)
  }

  lemma CallsOkStep<T>(b: Buffer<T>, e: BufferEvent<T>)
    requires BufferInv(b) && CallsOk(b)
    ensures CallsOk(BufferStep(b, e))
  {
    hide RingOk, ProducerGoing, ConsumerGoing, SemaInv, Books;
    match e
    case ProducerGoes(inTime) =>
      BufferStepKeeps(b, e);
      ProducerCallsOk(b, inTime);
    case ConsumerGoes(inTime) =>
      BufferStepKeeps(b, e);
      ConsumerCallsOk(b, inTime);
    case _ =>
  }

  lemma ProducerCallsOk<T>(b: Buffer<T>, inTime: bool)
    requires BufferInv(b) && CallsOk(b) && !ProducerGoing(b, inTime).crashed
    ensures CallsOk(ProducerGoing(b, inTime))
  {
    hide WriteOk, TakeOk, ProducerGoing, BufferInv;
    ProducerLeavesConsumer(b, inTime);
    WrittenOk(b, inTime);
  }

  lemma WrittenOk<T>(b: Buffer<T>, inTime: bool)
    requires BufferInv(b) && WriteOk(b) && !ProducerGoing(b, inTime).crashed
    ensures WriteOk(ProducerGoing(b, inTime))
  {
    hide RingOk, SemaStep, SemaInv, Books, And;
  }

  lemma ProducerLeavesConsumer<T>(b: Buffer<T>, inTime: bool)
    requires TakeOk(b)
    ensures TakeOk(ProducerGoing(b, inTime))
  {
    hide SemaStep, Writable, And, ProducerGoing, TakeOk, HasTaken;
    ProducerFrame(b, inTime);
    SameTaken(b, ProducerGoing(b, inTime));
  }

  lemma ProducerFrame<T>(b: Buffer<T>, inTime: bool)
    ensures var b' := ProducerGoing(b, inTime);
            && b'.cat == b.cat && b'.discard == b.discard && b'.result == b.result && b'.r.destroyed == b.r.destroyed
            && b'.r.dequeued == b.r.dequeued && b'.done.cok == b.done.cok && b'.done.cbase == b.done.cbase
  {
    hide SemaStep, Writable, And;
  }

  lemma SameTaken<T>(b: Buffer<T>, b': Buffer<T>)
    requires TakeOk(b) && b'.cat == b.cat && b'.discard == b.discard && b'.result == b.result && b'.r.destroyed == b.r.destroyed
    requires b'.r.dequeued == b.r.dequeued && b'.done.cok == b.done.cok && b'.done.cbase == b.done.cbase
    ensures TakeOk(b')
  {
  }

  lemma ConsumerCallsOk<T>(b: Buffer<T>, inTime: bool)
    requires BufferInv(b) && CallsOk(b) && !ConsumerGoing(b, inTime).crashed
    ensures CallsOk(ConsumerGoing(b, inTime))
  {
    hide WriteOk, TakeOk, ConsumerGoing, BufferInv;
    ConsumerLeavesProducer(b, inTime);
    TakenOk(b, inTime);
  }

  lemma ConsumerLeavesProducer<T>(b: Buffer<T>, inTime: bool)
    requires WriteOk(b)
    ensures WriteOk(ConsumerGoing(b, inTime))
  {
    hide SemaStep, Head, And, ConsumerGoing, WriteOk, HasWritten;
    ConsumerFrame(b, inTime);
    SameWritten(b, ConsumerGoing(b, inTime));
  }

  predicate SameProducer<T>(b: Buffer<T>, b': Buffer<T>) {
    b'.at == b.at && b'.done.ok == b.done.ok && b'.done.base == b.done.base
  }

  lemma ConsumerFrame<T>(b: Buffer<T>, inTime: bool)
    ensures var b' := ConsumerGoing(b, inTime); SameProducer(b, b') && b'.item == b.item && b'.r.written == b.r.written
  {
    hide SemaStep, Head, And, ConsumerGoing;
    if b.cat.CDestroying? {
      DestroyerFrame(b, inTime);
    } else if b.cat.CReading? || b.cat.CPeeking? {
      TakerFrame(b, inTime);
    } else {
      WaiterFrame(b, inTime);
    }
  }

  lemma DestroyerFrame<T>(b: Buffer<T>, inTime: bool)
    requires b.cat.CDestroying?
    ensures var b' := ConsumerGoing(b, inTime); SameProducer(b, b') && b'.item == b.item && b'.r.written == b.r.written
  {
    hide SemaStep, And;
  }

  lemma TakerFrame<T>(b: Buffer<T>, inTime: bool)
    requires b.cat.CReading? || b.cat.CPeeking?
    ensures var b' := ConsumerGoing(b, inTime); SameProducer(b, b') && b'.item == b.item && b'.r.written == b.r.written
  {
    hide SemaStep, Head;
  }

  lemma WaiterFrame<T>(b: Buffer<T>, inTime: bool)
    requires !b.cat.CReading? && !b.cat.CDestroying? && !b.cat.CPeeking?
    ensures var b' := ConsumerGoing(b, inTime); SameProducer(b, b') && b'.item == b.item && b'.r.written == b.r.written
  {
    hide SemaStep, Head;
  }

  lemma SameWritten<T>(b: Buffer<T>, b': Buffer<T>)
    requires WriteOk(b) && b'.at == b.at && b'.item == b.item && b'.r.written == b.r.written
    requires b'.done.ok == b.done.ok && b'.done.base == b.done.base
    ensures WriteOk(b')
  {
  }

  lemma TakenOk<T>(b: Buffer<T>, inTime: bool)
    requires BufferInv(b) && TakeOk(b) && !ConsumerGoing(b, inTime).crashed
    ensures TakeOk(ConsumerGoing(b, inTime))
  {
    hide BufferInv, ConsumerGoing, TakeOk;
    match b.cat
    case CReady => StaysReady(b, inTime);
    case CWaiting => WaitedOk(b, inTime);
    case CDestroying => DestroyedOk(b, inTime);
    case CReading => ReadOk(b, inTime);
    case CPeeking => ReadOk(b, inTime);
    case _ => SignalledOk(b, inTime);
  }

  lemma StaysReady<T>(b: Buffer<T>, inTime: bool)
    requires b.cat.CReady?
    ensures ConsumerGoing(b, inTime) == b
  {
    hide SemaStep, Head;
  }

  lemma WaitedOk<T>(b: Buffer<T>, inTime: bool)
    requires TakeOk(b) && b.cat.CWaiting?
    ensures TakeOk(ConsumerGoing(b, inTime))
  {
    hide SemaStep, Head;
  }

  lemma ReadOk<T>(b: Buffer<T>, inTime: bool)
    requires TakeOk(b) && (b.cat.CReading? || b.cat.CPeeking?)
    ensures TakeOk(ConsumerGoing(b, inTime))
  {
    hide SemaStep, And;
  }

  lemma DestroyedOk<T>(b: Buffer<T>, inTime: bool)
    requires BufferInv(b) && TakeOk(b) && b.cat.CDestroying? && !ConsumerGoing(b, inTime).crashed
    ensures TakeOk(ConsumerGoing(b, inTime))
  {
    hide SemaStep, And, RingOk, SemaInv, Books;
  }

  lemma SignalledOk<T>(b: Buffer<T>, inTime: bool)
    requires TakeOk(b) && (b.cat.CSignalling? || b.cat.CPosting?)
    ensures TakeOk(ConsumerGoing(b, inTime))
  {
    hide SemaStep, Head;
  }

  lemma {:induction false} CallsOkRun<T>(b: Buffer<T>, events: seq<BufferEvent<T>>)
    requires BufferInv(b) && CallsOk(b)
    ensures CallsOk(BufferRun(b, events))
    decreases |events|
  {
    hide BufferInv, BufferStep, CallsOk;
    if events != [] {
      CallsOkRun(b, events[..|events| - 1]);
      BufferRunKeeps(b, events[..|events| - 1]);
      CallsOkStep(BufferRun(b, events[..|events| - 1]), events[|events| - 1]);
    }
  }

  /**
    On every run: an enqueue that returned true added its own element, and one that returned false added nothing; a dequeue
    or pop that returned true took one element, which a dequeue gave to its caller, and any other call took nothing.
   */
  lemma ReturnsTellWhatHappened<T>(b0: Buffer<T>, events: seq<BufferEvent<T>>)
    requires BufferInv(b0) && CallsOk(b0)
    ensures var b := BufferRun(b0, events);
            && (b.at.PReady? ==> |b.r.written| == b.done.base + (if b.done.ok then 1 else 0) && (b.done.ok ==> b.item == Some(b.r.written[b.done.base])))
            && (b.cat.CReady? ==> |b.r.dequeued| == b.done.cbase + (if b.done.cok then 1 else 0))
            && (b.cat.CReady? && b.done.cok && !b.discard ==> b.result == Some(b.r.dequeued[b.done.cbase]))
  {
    hide BufferRun, BufferInv;
    CallsOkRun(b0, events);
  }

  /** What a producer call was begun with. */
  ghost predicate SameCall<T>(b: Buffer<T>, t: Buffer<T>) {
    t.item == b.item && t.done.base == b.done.base && b.r.written <= t.r.written
  }

  lemma SameCallStep<T>(b: Buffer<T>, t: Buffer<T>, e: BufferEvent<T>)
    requires SameCall(b, t) && !e.CallEnqueue?
    ensures SameCall(b, BufferStep(t, e))
  {
    hide ProducerGoing, ConsumerGoing, SemaStep;
    match e
    case ProducerGoes(inTime) => ProducerKeepsCall(t, inTime);
    case ConsumerGoes(inTime) => ConsumerFrame(t, inTime);
    case _ =>
  }

  lemma ProducerKeepsCall<T>(b: Buffer<T>, inTime: bool)
    ensures SameCall(b, ProducerGoing(b, inTime))
  {
    hide SemaStep, Writable, And;
  }

  lemma {:induction false} SameCallRun<T>(b: Buffer<T>, events: seq<BufferEvent<T>>)
    requires forall i :: 0 <= i < |events| ==> !events[i].CallEnqueue?
    ensures SameCall(b, BufferRun(b, events))
    decreases |events|
  {
    hide BufferStep;
    if events != [] {
      SameCallRun(b, events[..|events| - 1]);
      SameCallStep(b, BufferRun(b, events[..|events| - 1]), events[|events| - 1]);
    }
  }

  /** A call of the producer that has ended added its own element if it returned true, and else nothing. */
  lemma EnqueuesItsItem<T>(b: Buffer<T>, x: T, kind: WaitKind, forever: bool, during: seq<BufferEvent<T>>)
    requires BufferInv(b) && CallsOk(b) && b.at.PReady? && forall i :: 0 <= i < |during| ==> !during[i].CallEnqueue?
    requires BufferRun(BufferStep(b, CallEnqueue(x, kind, forever)), during).at.PReady?
    ensures var b' := BufferRun(BufferStep(b, CallEnqueue(x, kind, forever)), during);
            b'.r.written == b.r.written + if b'.done.ok then [x] else []
  {
    hide BufferRun, BufferInv, BufferStep, TakeOk;
    var call := CallEnqueue(x, kind, forever);
    var b1 := BufferStep(b, call);
    CallBegins(b, x, kind, forever);
    BufferStepKeeps(b, call);
    CallsOkStep(b, call);
    SameCallRun(b1, during);
    CallsOkRun(b1, during);
  }

  lemma CallBegins<T>(b: Buffer<T>, x: T, kind: WaitKind, forever: bool)
    requires b.at.PReady?
    ensures var b1 := BufferStep(b, CallEnqueue(x, kind, forever));
            b1.item == Some(x) && b1.done.base == |b.r.written| && b1.r == b.r
  {
    hide SemaStep, ProducerGoing, ConsumerGoing;
  }
}
