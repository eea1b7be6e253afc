/** The constructor, and what holds on every run of one producer and one consumer. */
module SpscRuns {
  import opened Wrappers
  import opened Bits
  import opened SpscQueue
  import opened SpscInvariant
  import SpscProducer
  import SpscConsumer

  // ---------------------------------------------------------------------------------------------
  // The constructor

  /** n empty blocks linked into a ring. */
  function RingOf<T>(n: nat, blockSize: nat): seq<Block<T>> {
    seq(n, i => NewBlock<T>(blockSize).(next := if i + 1 == n then 0 else i + 1))
  }

  function BlockCount(size: nat, maxBlockSize: nat): nat
    requires maxBlockSize >= 2
  {
    (size + maxBlockSize * 2 - 3) / (maxBlockSize - 1)
  }

  function IdleProducer<T>(): Producer<T> {
    Producer(PIdle, false, None, 0, 0, 0, 0, 0, 0, false, false, 0, false)
  }

  function IdleConsumer<T>(): Consumer<T> {
    Consumer(CIdle, TryDequeue, 0, 0, 0, 0, None, false, 0, false)
  }

  function Fresh<T>(size: nat, blockCount: nat, blockSize: nat, maxBlockSize: nat): State<T> {
    State(Memory(RingOf(blockCount, blockSize), 0, 0, blockSize, maxBlockSize,
                 size, blockSize, seq(blockCount, i => i), 0),
          IdleProducer(), IdleConsumer(), [], [])
  }

  /** s is the queue the constructor makes for `size` elements; `rounded` is ceilToPow2(size + 1). */
  ghost predicate Constructed<T>(s: State<T>, size: nat, maxBlockSize: nat, rounded: nat) {
    && IsLeastPow2(rounded, size + 1) && maxBlockSize >= 2
    && s == if rounded > maxBlockSize * 2 then Fresh(size, BlockCount(size, maxBlockSize), maxBlockSize, maxBlockSize)
            else Fresh(size, 1, rounded, maxBlockSize)
  }

  method Construct<T>(size: nat, maxBlockSize: nat) returns (s: State<T>, rounded: nat)
    requires size < WORD / 2 && maxBlockSize >= 2
    ensures Constructed(s, size, maxBlockSize, rounded)
  {
    rounded := CeilToPow2(size + 1);
    if rounded > maxBlockSize * 2 {
      var count := BlockCount(size, maxBlockSize);
      RoomForAll(size, rounded, maxBlockSize);
      var blocks: seq<Block<T>> := [];
      for i := 0 to count
        invariant blocks == RingOf(i, maxBlockSize)
      {
        var block := NewBlock<T>(maxBlockSize);
        if i > 0 {
          blocks := blocks[i - 1 := blocks[i - 1].(next := i)];
        }
        blocks := blocks + [block.(next := 0)];
      }
      s := Fresh(size, count, maxBlockSize, maxBlockSize).(m := Memory(blocks, 0, 0, maxBlockSize, maxBlockSize,
                                                                       size, maxBlockSize, seq(count, i => i), 0));
    } else {
      s := Fresh(size, 1, rounded, maxBlockSize);
    }
  }

  /** The block count is the least that leaves room for `size` elements in all blocks but one. */
  lemma RoomForAll(size: nat, rounded: nat, maxBlockSize: nat)
    requires IsLeastPow2(rounded, size + 1) && maxBlockSize >= 2 && rounded > maxBlockSize * 2
    ensures BlockCount(size, maxBlockSize) > 1
    ensures size <= (BlockCount(size, maxBlockSize) - 1) * (maxBlockSize - 1)
    ensures (BlockCount(size, maxBlockSize) - 2) * (maxBlockSize - 1) < size
  {
    LargeRequest(size, rounded, maxBlockSize);
    CeilingDivision(size, maxBlockSize - 1);
    assert size + maxBlockSize * 2 - 3 == size + 2 * (maxBlockSize - 1) - 1;
    if BlockCount(size, maxBlockSize) <= 1 {
      NotPositive(BlockCount(size, maxBlockSize) - 1, maxBlockSize - 1);
    }
  }

  lemma CeilingDivision(size: nat, d: nat)
    requires d >= 1
    ensures var n := (size + 2 * d - 1) / d; (n - 2) * d < size <= (n - 1) * d
  {
    var x := size + 2 * d - 1;
    var n := x / d;
    assert x == d * n + x % d;
    assert (n - 1) * d == d * n - d && (n - 2) * d == d * n - 2 * d;
  }

  lemma LargeRequest(size: nat, rounded: nat, maxBlockSize: nat)
    requires IsLeastPow2(rounded, size + 1) && maxBlockSize >= 2 && rounded > maxBlockSize * 2
    ensures size >= 1
  {
    NoLarger(rounded, size + 1, 0);
  }

  lemma NoLarger(rounded: nat, x: nat, k: nat)
    requires IsLeastPow2(rounded, x)
    ensures x <= Pow2(k) ==> rounded <= Pow2(k)
  {
  }

  lemma NotPositive(a: int, d: nat)
    requires a <= 0
    ensures a * d <= 0
  {
  }

  lemma FreshOk<T>(s: State<T>, size: nat, maxBlockSize: nat, rounded: nat)
    requires Constructed(s, size, maxBlockSize, rounded) && size >= 1
    ensures Inv(s) && Queue(s.m) == []
  {
    var n, b := if rounded > maxBlockSize * 2 then BlockCount(size, maxBlockSize) else 1, if rounded > maxBlockSize * 2 then maxBlockSize else rounded;
    if rounded > maxBlockSize * 2 {
      RoomForAll(size, rounded, maxBlockSize);
    }
    FreshBlock<T>(b);
    FreshRing<T>(s.m, n, b);
  }

  lemma FreshRing<T>(m: Memory<T>, n: nat, b: nat)
    requires n >= 1 && b >= 2 && m.blocks == RingOf(n, b) && m.ring == seq(n, i => i) && m.tailIndex == 0
    requires m.frontBlock == 0 && m.tailBlock == 0 && m.minSize == b
    ensures RingOk(m) && BlocksOk(m, false, 0, None) && FillOk(m, false) && Queue(m) == []
  {
    FreshBlock<T>(b);
    forall i | 0 <= i < n ensures BlockOk(m.blocks[i], false, None) {
      Relinks(NewBlock<T>(b), false, None, m.blocks[i].next);
    }
    assert m.ring[..1] == [0];
    ContentsOne(m.blocks, 0);
  }

  // ---------------------------------------------------------------------------------------------
  // Every run

  lemma StepKeeps<T>(s: State<T>, e: Event<T>)
    requires Inv(s)
    ensures Inv(Step(s, e))
  {
    hide Inv, ProducerStep, ConsumerStep, BeginEnqueueStep, BeginConsumeStep;
    match e
    case BeginEnqueue(x, canAlloc) => if s.p.pc.PIdle? { SpscProducer.Begins(s, x, canAlloc); }
    case ProducerMoves(allocates) => if !s.p.pc.PIdle? { SpscProducer.ProducerKeeps(s, allocates); }
    case BeginConsume(op) => if s.c.pc.CIdle? { SpscConsumer.Begins(s, op); }
    case ConsumerMoves => if !s.c.pc.CIdle? { SpscConsumer.ConsumerKeeps(s); }
  }

  lemma {:induction false} RunKeeps<T>(s: State<T>, events: seq<Event<T>>)
    requires Inv(s)
    ensures Inv(Run(s, events))
    decreases |events|
  {
    hide Inv, Step;
    if events != [] {
      RunKeeps(s, events[..|events| - 1]);
      StepKeeps(Run(s, events[..|events| - 1]), events[|events| - 1]);
    }
  }

  /**
    First in, first out: on every interleaving, what was dequeued is a prefix of what was enqueued, and
    the rest is what the blocks from the front block round to the tail block hold.
   */
  lemma FifoOnEveryRun<T>(s0: State<T>, size: nat, maxBlockSize: nat, rounded: nat, events: seq<Event<T>>)
    requires Constructed(s0, size, maxBlockSize, rounded) && size >= 1
    ensures var s := Run(s0, events); s.enqueued == s.dequeued + Queue(s.m) && s.dequeued <= s.enqueued
  {
    FreshOk(s0, size, maxBlockSize, rounded);
    RunKeeps(s0, events);
  }

  /**
    No crash on any run: no element is constructed over a live one, none is read or destroyed before it
    is constructed, no null pointer is followed, and the assertions of the original hold.
   */
  lemma NeverCrashes<T>(s0: State<T>, size: nat, maxBlockSize: nat, rounded: nat, events: seq<Event<T>>)
    requires Constructed(s0, size, maxBlockSize, rounded) && size >= 1
    ensures var s := Run(s0, events); !s.p.pc.PCrashed? && !s.c.pc.CCrashed?
  {
    FreshOk(s0, size, maxBlockSize, rounded);
    RunKeeps(s0, events);
  }

  /** A finished call returned what it should: the element added, the element taken out, the front element. */
  lemma ReturnsAreRight<T>(s0: State<T>, size: nat, maxBlockSize: nat, rounded: nat, events: seq<Event<T>>)
    requires Constructed(s0, size, maxBlockSize, rounded) && size >= 1
    ensures var s := Run(s0, events);
            && (s.p.pc.PIdle? && s.p.calls > 0 && s.p.returned ==>
                  s.enqueued != [] && s.p.elem == Some(s.enqueued[|s.enqueued| - 1]))
            && (s.p.pc.PIdle? && s.p.calls > 0 && !s.p.returned && s.p.canAlloc ==> s.p.outOfMemory)
            && (s.c.pc.CIdle? && s.c.calls > 0 && s.c.returned && s.c.op.TryDequeue? ==>
                  s.dequeued != [] && s.c.result == Some(s.dequeued[|s.dequeued| - 1]))
            && (s.c.pc.CIdle? && s.c.calls > 0 && s.c.returned && s.c.op.Peek? ==>
                  Queue(s.m) != [] && s.c.result == Some(Queue(s.m)[0]))
  {
    FreshOk(s0, size, maxBlockSize, rounded);
    RunKeeps(s0, events);
  }

  /** Each shadow copy is a past value of the index it shadows: never ahead of it, never a full turn behind. */
  lemma ShadowCopiesLag<T>(s0: State<T>, size: nat, maxBlockSize: nat, rounded: nat, events: seq<Event<T>>, i: nat)
    requires Constructed(s0, size, maxBlockSize, rounded) && size >= 1
    requires i < |Run(s0, events).m.ring| && Run(s0, events).m.ring[i] < |Run(s0, events).m.blocks|
    ensures var m := Run(s0, events).m; CountersOk(m.blocks[m.ring[i]])
  {
    FreshOk(s0, size, maxBlockSize, rounded);
    RunKeeps(s0, events);
    SpscProducer.AtCounters(Run(s0, events), i);
  }

  // ---------------------------------------------------------------------------------------------
  // Block sizes are powers of two, so that an index masked with size - 1 is an index modulo the size

  ghost predicate Pow2Sizes<T>(m: Memory<T>) {
    IsPow2(m.largestBlockSize) && forall i :: 0 <= i < |m.blocks| ==> IsPow2(m.blocks[i].size)
  }

  /** No block changes its size; a new one has the size that is then the largest. */
  predicate SizesGrow<T>(m: Memory<T>, m': Memory<T>) {
    && |m.blocks| <= |m'.blocks| && (forall i :: 0 <= i < |m.blocks| ==> m'.blocks[i].size == m.blocks[i].size)
    && (if |m'.blocks| == |m.blocks| then m'.largestBlockSize == m.largestBlockSize
        else |m'.blocks| == |m.blocks| + 1 && m'.blocks[|m.blocks|].size == m'.largestBlockSize == NewBlockSize(m))
  }

  lemma ProducerSizes<T>(s: State<T>, a: bool)
    ensures SizesGrow(s.m, ProducerStep(s, a).m)
  {
    hide ProducerStep, SizesGrow;
    if OnTailBlock(s.p.pc) {
      SizesOnTail(s, a);
    } else {
      SizesBehind(s, a);
    }
  }

  lemma SizesOnTail<T>(s: State<T>, a: bool)
    requires OnTailBlock(s.p.pc)
    ensures SizesGrow(s.m, ProducerStep(s, a).m)
  {
    hide Queue, NewBlock, NewBlockSize;
  }

  lemma SizesBehind<T>(s: State<T>, a: bool)
    requires !OnTailBlock(s.p.pc)
    ensures SizesGrow(s.m, ProducerStep(s, a).m)
  {
    hide Queue, NewBlockSize;
  }

  lemma ConsumerSizes<T>(s: State<T>)
    ensures var m, m' := s.m, ConsumerStep(s).m;
            && |m'.blocks| == |m.blocks| && (forall i :: 0 <= i < |m.blocks| ==> m'.blocks[i].size == m.blocks[i].size)
            && m'.largestBlockSize == m.largestBlockSize
  {
    hide Queue;
  }

  lemma Doubles(n: nat)
    requires IsPow2(n)
    ensures IsPow2(n * 2)
  {
    var k: nat :| n == Pow2(k);
    assert n * 2 == Pow2(k + 1);
  }

  lemma SizesStep<T>(s: State<T>, e: Event<T>)
    requires Pow2Sizes(s.m)
    ensures Pow2Sizes(Step(s, e).m)
  {
    hide ProducerStep, ConsumerStep, IsPow2;
    Doubles(s.m.largestBlockSize);
    ConsumerSizes(s);
    if e.ProducerMoves? {
      ProducerSizes(s, e.allocates);
    }
  }

  lemma {:induction false} SizesKept<T>(s0: State<T>, events: seq<Event<T>>)
    requires Pow2Sizes(s0.m)
    ensures Pow2Sizes(Run(s0, events).m)
    decreases |events|
  {
    hide Step, Pow2Sizes;
    if events != [] {
      SizesKept(s0, events[..|events| - 1]);
      SizesStep(Run(s0, events[..|events| - 1]), events[|events| - 1]);
    }
  }

  /** In every block of every run, the original's `i & sizeMask` is `i % size`. */
  lemma MaskIsModuloOnEveryRun<T>(s0: State<T>, size: nat, maxBlockSize: nat, rounded: nat, events: seq<Event<T>>, b: nat, i: nat)
    requires Constructed(s0, size, maxBlockSize, rounded) && IsPow2(maxBlockSize) && b < |Run(s0, events).m.blocks|
    ensures var n := Run(s0, events).m.blocks[b].size; n >= 1 && And(i, n - 1) == i % n
  {
    assert IsPow2(rounded);
    SizesKept(s0, events);
    var k: nat :| Run(s0, events).m.blocks[b].size == Pow2(k);
    MaskIsModulo(i, k);
  }

  // ---------------------------------------------------------------------------------------------
  // What a call adds

  /** A step of an enqueue adds one element if it ends the call with success, and none otherwise. */
  lemma EnqueueCounts<T>(s: State<T>, a: bool)
    requires Inv(s) && !s.p.pc.PIdle?
    ensures Adds(s, ProducerStep(s, a))
  {
    hide ProducerStep, Adds, RingOk, Queue, BlocksOk, FillOk, SizesOk, ConsumerOk, HistoryOk, ProducerOk;
    NoBlockYet(s);
    EnqueueAdds(s, a);
  }

  lemma NoBlockYet<T>(s: State<T>)
    requires Inv(s) && !s.p.pc.PIdle?
    ensures s.p.tb < |s.m.blocks| && s.p.nb < |s.m.blocks| && s.p.elem.Some? && !s.p.pc.PCrashed?
    ensures s.m.blocks[s.p.tb].size > 0 && s.m.blocks[s.p.nb].size > 0
  {
    hide Queue, BlocksOk, FillOk, SizesOk, ConsumerOk, HistoryOk;
  }

  lemma EnqueueAdds<T>(s: State<T>, a: bool)
    requires s.p.tb < |s.m.blocks| && s.p.nb < |s.m.blocks| && s.p.elem.Some? && !s.p.pc.PIdle? && !s.p.pc.PCrashed?
    requires s.m.blocks[s.p.tb].size > 0 && s.m.blocks[s.p.nb].size > 0
    ensures Adds(s, ProducerStep(s, a))
  {
    hide ProducerStep, Adds;
    if OnTailBlock(s.p.pc) {
      AddsOnTail(s, a);
    } else {
      AddsBehind(s, a);
    }
  }

  ghost predicate Adds<T>(s: State<T>, s': State<T>) {
    && s'.c == s.c && s'.dequeued == s.dequeued
    && |s'.enqueued| == |s.enqueued| + (if s'.p.pc.PIdle? && s'.p.returned then 1 else 0)
  }

  lemma AddsOnTail<T>(s: State<T>, a: bool)
    requires s.p.tb < |s.m.blocks| && s.p.nb < |s.m.blocks| && s.p.elem.Some? && OnTailBlock(s.p.pc)
    requires s.m.blocks[s.p.tb].size > 0 && s.m.blocks[s.p.nb].size > 0
    ensures Adds(s, ProducerStep(s, a))
  {
    hide Queue, WithBlock, FrontSeen, TailStored, Linked, NewBlock, NewBlockSize;
  }

  lemma AddsBehind<T>(s: State<T>, a: bool)
    requires s.p.tb < |s.m.blocks| && s.p.nb < |s.m.blocks| && s.p.elem.Some? && !OnTailBlock(s.p.pc) && !s.p.pc.PIdle? && !s.p.pc.PCrashed?
    requires s.m.blocks[s.p.tb].size > 0 && s.m.blocks[s.p.nb].size > 0
    ensures Adds(s, ProducerStep(s, a))
  {
    hide Queue, WithBlock, FrontSeen, TailStored, Linked, NewBlock, NewBlockSize;
  }

  /** A step of the consumer takes one element if it ends a dequeue or pop with success, and none otherwise. */
  lemma DequeueCounts<T>(s: State<T>)
    requires Inv(s) && !s.c.pc.CIdle?
    ensures var s' := ConsumerStep(s);
            && s'.p == s.p && s'.enqueued == s.enqueued && s'.c.op == s.c.op && s'.c.calls == s.c.calls
            && s.c.calls > 0
            && |s'.dequeued| == |s.dequeued| + (if s'.c.pc.CIdle? && s'.c.returned && !s.c.op.Peek? then 1 else 0)
            && (s'.c.sawEmpty ==> s.c.sawEmpty || |Queue(s.m)| == 0)
  {
    hide RingOk, Queue, BlocksOk, FillOk, SizesOk, ProducerOk, HistoryOk, WithBlock, TailSeen, FrontStored, Rotated;
  }

  // ---------------------------------------------------------------------------------------------
  // False returns are justified

  lemma RunPrefix<T>(s0: State<T>, events: seq<Event<T>>, k: nat)
    requires k <= |events| - 1
    ensures Run(s0, events[..|events| - 1][..k]) == Run(s0, events[..k])
  {
    assert events[..|events| - 1][..k] == events[..k];
  }

  lemma {:induction false} EmptyInstant<T>(s0: State<T>, events: seq<Event<T>>) returns (k: nat)
    requires !s0.c.sawEmpty && Run(s0, events).c.sawEmpty
    ensures k <= |events| && Run(s0, events[..k]).c.calls == Run(s0, events).c.calls
    ensures !Run(s0, events[..k]).c.pc.CIdle? && Queue(Run(s0, events[..k]).m) == []
    decreases |events|
  {
    hide Queue, Step;
    var before := events[..|events| - 1];
    var s := Run(s0, before);
    EmptySeen(s, events[|events| - 1]);
    if s.c.sawEmpty {
      k := EmptyInstant(s0, before);
    } else {
      k := |events| - 1;
    }
    RunPrefix(s0, events, k);
  }

  lemma EmptySeen<T>(s: State<T>, e: Event<T>)
    requires Step(s, e).c.sawEmpty
    ensures s.c.calls == Step(s, e).c.calls && (s.c.sawEmpty || (!s.c.pc.CIdle? && Queue(s.m) == []))
  {
    hide Queue, ProducerStep;
    ProducerLeavesConsumer(s, true);
    ProducerLeavesConsumer(s, false);
  }

  lemma ProducerLeavesConsumer<T>(s: State<T>, a: bool)
    ensures ProducerStep(s, a).c == s.c
  {
    hide Queue;
  }

  /** A dequeue, pop or peek that returned empty-handed began before, and ended after, an instant with an empty queue. */
  lemma FalseMeansEmpty<T>(s0: State<T>, size: nat, maxBlockSize: nat, rounded: nat, events: seq<Event<T>>) returns (k: nat)
    requires Constructed(s0, size, maxBlockSize, rounded) && size >= 1
    requires var c := Run(s0, events).c; c.pc.CIdle? && c.calls > 0 && !c.returned
    ensures k <= |events| && Run(s0, events[..k]).c.calls == Run(s0, events).c.calls
    ensures !Run(s0, events[..k]).c.pc.CIdle? && Queue(Run(s0, events[..k]).m) == []
  {
    FreshOk(s0, size, maxBlockSize, rounded);
    RunKeeps(s0, events);
    k := EmptyInstant(s0, events);
  }

  lemma {:induction false} FullInstant<T>(s0: State<T>, events: seq<Event<T>>) returns (k: nat)
    requires !s0.p.sawFull && Run(s0, events).p.sawFull
    ensures k <= |events| && Run(s0, events[..k]).p.calls == Run(s0, events).p.calls
    ensures !Run(s0, events[..k]).p.pc.PIdle? && |Queue(Run(s0, events[..k]).m)| >= s0.m.capacity
    decreases |events|
  {
    hide Queue, Step;
    var before := events[..|events| - 1];
    var s := Run(s0, before);
    FullSeen(s, events[|events| - 1]);
    CapacityKept(s0, before);
    if s.p.sawFull {
      k := FullInstant(s0, before);
    } else {
      k := |events| - 1;
    }
    RunPrefix(s0, events, k);
  }

  lemma FullSeen<T>(s: State<T>, e: Event<T>)
    requires Step(s, e).p.sawFull
    ensures s.p.calls == Step(s, e).p.calls && (s.p.sawFull || (!s.p.pc.PIdle? && |Queue(s.m)| >= s.m.capacity))
  {
    hide Queue, ConsumerStep, ProducerStep;
    ConsumerLeavesProducer(s);
    FullSeenByProducer(s, true);
    FullSeenByProducer(s, false);
  }

  lemma FullSeenByProducer<T>(s: State<T>, a: bool)
    ensures s.p.calls == ProducerStep(s, a).p.calls
    ensures ProducerStep(s, a).p.sawFull ==> s.p.sawFull || ((s.p.pc.PLoadFront? || s.p.pc.PLoadFrontBlock?) && |Queue(s.m)| >= s.m.capacity)
  {
    hide ProducerStep, Queue;
    if s.p.pc.PLoadFront? || s.p.pc.PLoadFrontBlock? {
      FullSeenByLoad(s, a);
    } else {
      FullUnchanged(s, a);
    }
  }

  lemma FullSeenByLoad<T>(s: State<T>, a: bool)
    requires s.p.pc.PLoadFront? || s.p.pc.PLoadFrontBlock?
    ensures s.p.calls == ProducerStep(s, a).p.calls
    ensures ProducerStep(s, a).p.sawFull ==> s.p.sawFull || |Queue(s.m)| >= s.m.capacity
  {
    hide Queue, WithBlock, FrontSeen;
  }

  lemma FullUnchanged<T>(s: State<T>, a: bool)
    requires !s.p.pc.PLoadFront? && !s.p.pc.PLoadFrontBlock?
    ensures s.p.calls == ProducerStep(s, a).p.calls && ProducerStep(s, a).p.sawFull == s.p.sawFull
  {
    hide ProducerStep;
    if OnTailBlock(s.p.pc) {
      FullUnchangedOnTail(s, a);
    } else if OnNextBlock(s.p.pc) {
      FullUnchangedOnNext(s, a);
    } else {
      FullUnchangedOnNew(s, a);
    }
  }

  /** The program counters of the first half of inner_enqueue. */
  predicate OnTailBlock(pc: ProducerPc) {
    pc.PLoadLocalFront? || pc.PLoadTail? || pc.PLoadFront? || pc.PConstruct? || pc.PStoreTail? || pc.PLoadNext? || pc.PLoadFrontBlock? || pc.PReloadNext?
  }

  /** And those on the block behind the tail block. */
  predicate OnNextBlock(pc: ProducerPc) {
    pc.PLoadNextFront? || pc.PLoadNextTail? || pc.PNextConstruct? || pc.PNextStoreTail? || pc.PStoreTailBlock?
  }

  lemma FullUnchangedOnTail<T>(s: State<T>, a: bool)
    requires OnTailBlock(s.p.pc) && !s.p.pc.PLoadFront? && !s.p.pc.PLoadFrontBlock?
    ensures s.p.calls == ProducerStep(s, a).p.calls && ProducerStep(s, a).p.sawFull == s.p.sawFull
  {
    hide Queue, WithBlock, FrontSeen, TailStored, Linked, NewBlock, NewBlockSize;
  }

  lemma FullUnchangedOnNext<T>(s: State<T>, a: bool)
    requires OnNextBlock(s.p.pc)
    ensures s.p.calls == ProducerStep(s, a).p.calls && ProducerStep(s, a).p.sawFull == s.p.sawFull
  {
    hide Queue, WithBlock, FrontSeen, TailStored, Linked, NewBlock, NewBlockSize;
  }

  lemma FullUnchangedOnNew<T>(s: State<T>, a: bool)
    requires !OnTailBlock(s.p.pc) && !OnNextBlock(s.p.pc)
    ensures s.p.calls == ProducerStep(s, a).p.calls && ProducerStep(s, a).p.sawFull == s.p.sawFull
  {
    hide Queue, WithBlock, FrontSeen, TailStored, Linked, NewBlock, NewBlockSize;
  }

  lemma ConsumerLeavesProducer<T>(s: State<T>)
    ensures ConsumerStep(s).p == s.p
  {
  }

  lemma CapacityStep<T>(s: State<T>, e: Event<T>)
    ensures Step(s, e).m.capacity == s.m.capacity
  {
    hide Queue;
  }

  lemma {:induction false} CapacityKept<T>(s0: State<T>, events: seq<Event<T>>)
    ensures Run(s0, events).m.capacity == s0.m.capacity
    decreases |events|
  {
    hide Step;
    if events != [] {
      CapacityKept(s0, events[..|events| - 1]);
      CapacityStep(Run(s0, events[..|events| - 1]), events[|events| - 1]);
    }
  }

  /** A try_enqueue that failed saw, at an instant of the call, at least as many elements queued as the queue was built for. */
  lemma FalseMeansFull<T>(s0: State<T>, size: nat, maxBlockSize: nat, rounded: nat, events: seq<Event<T>>) returns (k: nat)
    requires Constructed(s0, size, maxBlockSize, rounded) && size >= 1
    requires var p := Run(s0, events).p; p.pc.PIdle? && p.calls > 0 && !p.returned && !p.canAlloc
    ensures k <= |events| && Run(s0, events[..k]).p.calls == Run(s0, events).p.calls
    ensures !Run(s0, events[..k]).p.pc.PIdle? && |Queue(Run(s0, events[..k]).m)| >= size
  {
    FreshOk(s0, size, maxBlockSize, rounded);
    RunKeeps(s0, events);
    k := FullInstant(s0, events);
  }
}
