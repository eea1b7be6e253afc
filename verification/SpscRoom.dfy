/** How much the queue holds, and how its blocks grow. */
module SpscRoom {
  import opened Wrappers
  import opened Bits
  import opened Modular
  import opened SpscQueue
  import opened SpscInvariant
  import opened SpscRuns
  import SpscProducer

  // ---------------------------------------------------------------------------------------------
  // What the constructor makes

  lemma {:induction false} SamePow2(a: nat, b: nat, x: nat)
    requires IsLeastPow2(a, x) && IsPow2(b)
    ensures a <= b <==> x <= b
  {
    var k: nat :| b == Pow2(k);
    NoLarger(a, x, k);
  }

  /**
    Up to twice the maximal block size there is one block, the smallest that holds `size` elements and a spare slot;
    from there on a ring of maximal blocks, the fewest that hold them without the block that is being emptied.
   */
  lemma ConstructedShape<T>(s: State<T>, size: nat, maxBlockSize: nat, rounded: nat)
    requires Constructed(s, size, maxBlockSize, rounded) && IsPow2(maxBlockSize)
    ensures var n := |s.m.blocks|;
            && (forall i :: 0 <= i < n ==> s.m.blocks[i].next == (if i + 1 < n then i + 1 else 0) && |s.m.blocks[i].slots| == s.m.blocks[i].size)
            && s.m.frontBlock == s.m.tailBlock == 0 && s.m.maxBlockSize == maxBlockSize
            && (if size < maxBlockSize * 2 then n == 1 && IsLeastPow2(s.m.blocks[0].size, size + 1)
                else && (forall i :: 0 <= i < n ==> s.m.blocks[i].size == maxBlockSize)
                     && (n - 2) * (maxBlockSize - 1) < size <= (n - 1) * (maxBlockSize - 1))
  {
    Doubles(maxBlockSize);
    SamePow2(rounded, maxBlockSize * 2, size + 1);
    if rounded > maxBlockSize * 2 {
      RoomForAll(size, rounded, maxBlockSize);
    }
  }

  /** All slots but the spare one of each block. */
  function Room(size: nat, maxBlockSize: nat, rounded: nat): nat
    requires maxBlockSize >= 2 && rounded >= 1
  {
    if rounded > maxBlockSize * 2 then BlockCount(size, maxBlockSize) * (maxBlockSize - 1) else rounded - 1
  }

  /** The queue of audio chunks: six blocks of 512 for 2048 elements, with room for 3066. */
  lemma AudioQueue<T>(s: State<T>, rounded: nat)
    requires Constructed(s, 2048, 512, rounded)
    ensures |s.m.blocks| == 6 && (forall i :: 0 <= i < 6 ==> s.m.blocks[i].size == 512) && rounded == 4096 && Room(2048, 512, rounded) == 3066
  {
    assert Pow2(12) == 4096 && Pow2(11) == 2048;
    NoLarger(rounded, 2049, 12);
    var k: nat :| rounded == Pow2(k);
    if k <= 11 {
      Pow2Grows(k, 11);
    } else {
      Pow2Grows(12, k);
    }
  }

  // ---------------------------------------------------------------------------------------------
  // A queue that does not grow

  predicate Allocating(pc: ProducerPc) {
    pc.PAlloc? || pc.PNewConstruct? || pc.PNewInit? || pc.PNewLink? || pc.PLink?
  }

  /** No call that may allocate is under way, and there are n blocks of size b. */
  predicate Fixed<T>(s: State<T>, n: nat, b: nat) {
    && !s.p.canAlloc && !Allocating(s.p.pc) && |s.m.blocks| == n && |s.m.ring| == n
    && forall i :: 0 <= i < n ==> s.m.blocks[i].size == b
  }

  /** try_enqueue, moves of both threads and calls of the consumer; not enqueue. */
  predicate Allocates<T>(e: Event<T>) {
    e.BeginEnqueue? && e.canAlloc
  }

  predicate FixedFrame<T>(s: State<T>, s': State<T>) {
    && s'.p.canAlloc == s.p.canAlloc && !Allocating(s'.p.pc) && |s'.m.ring| == |s.m.ring| && |s'.m.blocks| == |s.m.blocks|
  }

  lemma ProducerFixed<T>(s: State<T>, a: bool)
    requires !s.p.canAlloc && !Allocating(s.p.pc)
    ensures FixedFrame(s, ProducerStep(s, a))
  {
    hide ProducerStep, FixedFrame;
    if OnTailBlock(s.p.pc) {
      FixedOnTail(s, a);
    } else {
      FixedOnNext(s, a);
    }
  }

  lemma FixedOnTail<T>(s: State<T>, a: bool)
    requires !s.p.canAlloc && OnTailBlock(s.p.pc)
    ensures FixedFrame(s, ProducerStep(s, a))
  {
    hide Queue, FrontSeen, TailStored;
  }

  lemma FixedOnNext<T>(s: State<T>, a: bool)
    requires !s.p.canAlloc && !OnTailBlock(s.p.pc) && !Allocating(s.p.pc)
    ensures FixedFrame(s, ProducerStep(s, a))
  {
    hide Queue, FrontSeen, TailStored, NewBlock, NewBlockSize, Linked;
  }

  lemma ConsumerFixed<T>(s: State<T>)
    ensures ConsumerStep(s).p == s.p && |ConsumerStep(s).m.ring| == |s.m.ring|
  {
    hide Queue, TailSeen, FrontStored, Taken;
  }

  lemma FixedStep<T>(s: State<T>, e: Event<T>, n: nat, b: nat)
    requires Fixed(s, n, b) && !Allocates(e)
    ensures Fixed(Step(s, e), n, b)
  {
    hide ProducerStep, ConsumerStep;
    match e
    case BeginEnqueue(_, _) =>
    case ProducerMoves(a) =>
      ProducerFixed(s, a);
      ProducerSizes(s, a);
    case BeginConsume(_) =>
    case ConsumerMoves =>
      ConsumerFixed(s);
      ConsumerSizes(s);
  }

  lemma {:induction false} FixedRun<T>(s0: State<T>, events: seq<Event<T>>, n: nat, b: nat)
    requires Fixed(s0, n, b) && forall i :: 0 <= i < |events| ==> !Allocates(events[i])
    ensures Fixed(Run(s0, events), n, b)
    decreases |events|
  {
    hide Step, Fixed, Allocates;
    if events != [] {
      FixedRun(s0, events[..|events| - 1], n, b);
      FixedStep(Run(s0, events[..|events| - 1]), events[|events| - 1], n, b);
    }
  }

  lemma {:induction false} ContentsFit<T>(blocks: seq<Block<T>>, ids: seq<nat>, each: nat)
    requires forall i :: 0 <= i < |ids| ==> ids[i] < |blocks| && |Live(blocks[ids[i]])| <= each
    ensures |Contents(blocks, ids)| <= |ids| * each
  {
    if ids != [] {
      ContentsFit(blocks, ids[1..], each);
      OneMore(|ids[1..]|, each);
    }
  }

  lemma OneMore(n: nat, each: nat)
    ensures (n + 1) * each == n * each + each
  {
  }

  /** One slot of every block is spare. */
  lemma QueueFits<T>(s: State<T>, n: nat, b: nat)
    requires Inv(s) && Fixed(s, n, b) && b >= 1
    ensures |Queue(s.m)| <= n * (b - 1)
  {
    hide BlocksOk, FillOk, SizesOk, ProducerOk, ConsumerOk, HistoryOk;
    var ids := s.m.ring[..s.m.tailIndex + 1];
    forall i | 0 <= i < |ids| ensures |Live(s.m.blocks[ids[i]])| <= b - 1 {
      SpscProducer.AtCounters(s, i);
    }
    ContentsFit(s.m.blocks, ids, b - 1);
    Monotone(|ids|, n, b - 1);
  }

  lemma FreshFixed<T>(s: State<T>, size: nat, maxBlockSize: nat, rounded: nat) returns (n: nat, b: nat)
    requires Constructed(s, size, maxBlockSize, rounded)
    ensures b >= 1 && Fixed(s, n, b) && n * (b - 1) == Room(size, maxBlockSize, rounded)
  {
    n, b := if rounded > maxBlockSize * 2 then BlockCount(size, maxBlockSize) else 1, if rounded > maxBlockSize * 2 then maxBlockSize else rounded;
    if rounded > maxBlockSize * 2 {
      RoomForAll(size, rounded, maxBlockSize);
    }
  }

  /** On every run without an allocating enqueue the queue never holds more than there is room for. */
  lemma NeverMoreThanRoom<T>(s0: State<T>, size: nat, maxBlockSize: nat, rounded: nat, events: seq<Event<T>>)
    requires Constructed(s0, size, maxBlockSize, rounded) && size >= 1
    requires forall i :: 0 <= i < |events| ==> !Allocates(events[i])
    ensures |Queue(Run(s0, events).m)| <= Room(size, maxBlockSize, rounded)
  {
    hide Run, Inv, Queue, Room;
    FreshOk(s0, size, maxBlockSize, rounded);
    RunKeeps(s0, events);
    var n, b := FreshFixed(s0, size, maxBlockSize, rounded);
    FixedRun(s0, events, n, b);
    QueueFits(Run(s0, events), n, b);
  }

  // ---------------------------------------------------------------------------------------------
  // size_approx and max_capacity, at one instant

  /** All slots but the spare ones of the given blocks. */
  function RoomIn<T>(blocks: seq<Block<T>>, ids: seq<nat>): nat
    decreases |ids|
  {
    if ids == [] then 0
    else
      var n := |ids| - 1;
      RoomIn(blocks, ids[..n]) + if ids[n] < |blocks| && blocks[ids[n]].size > 0 then blocks[ids[n]].size - 1 else 0
  }

  lemma RoomSnoc<T>(m: Memory<T>, i: nat)
    requires RingOk(m) && i < |m.ring| && At(m, i).size > 0
    ensures RoomIn(m.blocks, m.ring[..i + 1]) == RoomIn(m.blocks, m.ring[..i]) + At(m, i).size - 1
  {
    assert m.ring[..i + 1][..i] == m.ring[..i];
  }

  lemma InvRing<T>(s: State<T>)
    requires Inv(s)
    ensures RingOk(s.m)
  {
  }

  /** The block where the walk stands after i blocks. */
  ghost function Reached<T>(m: Memory<T>, i: nat): nat
    requires RingOk(m) && i <= |m.ring|
  {
    m.ring[if i == |m.ring| then 0 else i]
  }

  lemma WalksOn<T>(m: Memory<T>, i: nat)
    requires RingOk(m) && i < |m.ring|
    ensures m.blocks[m.ring[i]].next == Reached(m, i + 1)
    ensures i > 0 ==> m.ring[i] != m.frontBlock
  {
  }

  /** max_capacity: every block counts, once. */
  method MaxCapacity<T>(s: State<T>) returns (total: nat)
    requires Inv(s)
    ensures RingOk(s.m) && total == RoomIn(s.m.blocks, s.m.ring)
  {
    hide Inv, RingOk, CountersOk, RoomIn;
    InvRing(s);
    var m := s.m;
    RingFacts(m);
    ghost var i := 0;
    total := 0;
    EmptyRoom(m);
    var block: int := m.frontBlock;
    var again := true;
    while again
      invariant RingOk(m) && i <= |m.ring| && (again <==> i < |m.ring|) && block == Reached(m, i)
      invariant total == RoomIn(m.blocks, m.ring[..i])
      decreases |m.ring| - i
    {
      SpscProducer.AtCounters(s, i);
      Bounded(s, i);
      RoomSnoc(m, i);
      WalksOn(m, i);
      total := total + m.blocks[block].size - 1;
      block := m.blocks[block].next;
      i := i + 1;
      if i < |m.ring| { WalksOn(m, i); }
      again := block != m.frontBlock;
    }
    assert m.ring[..i] == m.ring;
  }

  lemma RingFacts<T>(m: Memory<T>)
    requires RingOk(m)
    ensures |m.ring| > 0 && Reached(m, 0) == Reached(m, |m.ring|) == m.frontBlock
  {
  }

  lemma EmptyRoom<T>(m: Memory<T>)
    ensures RoomIn(m.blocks, m.ring[..0]) == 0
  {
  }

  lemma Bounded<T>(s: State<T>, i: nat)
    requires Inv(s) && i < |s.m.ring|
    ensures RingOk(s.m) && s.m.ring[i] < |s.m.blocks| && Reached(s.m, i) == s.m.ring[i] && At(s.m, i).size >= 2
    ensures var b := At(s.m, i);
            b.tail < b.size && b.front < b.size && (b.tail + b.size - b.front) % b.size == b.added - b.removed == |Live(b)|
  {
    hide BlocksOk, SizesOk, ConsumerOk, HistoryOk, ProducerOk, FillOk;
    SpscProducer.AtCounters(s, i);
    var b := At(s.m, i);
    Distance(b.removed, b.added, b.size);
  }

  /** size_approx: between two calls of the producer it is the number of elements queued. */
  method SizeApprox<T>(s: State<T>) returns (n: nat)
    requires Inv(s) && s.p.pc.PIdle?
    ensures n == |Queue(s.m)|
  {
    hide Inv, RingOk, CountersOk, Contents, Queue, Live;
    InvRing(s);
    var m := s.m;
    RingFacts(m);
    ghost var i := 0;
    n := 0;
    NothingHeld(m);
    var block: int := m.frontBlock;
    var again := true;
    while again
      invariant RingOk(m) && i <= |m.ring| && (again <==> i < |m.ring|) && block == Reached(m, i)
      invariant n == |Contents(m.blocks, m.ring[..i])|
      decreases |m.ring| - i
    {
      Bounded(s, i);
      ContentsSnoc(m, i);
      WalksOn(m, i);
      var b := m.blocks[block];
      n := n + (b.tail + b.size - b.front) % b.size;
      block := b.next;
      i := i + 1;
      if i < |m.ring| { WalksOn(m, i); }
      again := block != m.frontBlock;
    }
    assert m.ring[..i] == m.ring;
    NothingBehind(s);
  }

  lemma NothingHeld<T>(m: Memory<T>)
    ensures Contents(m.blocks, m.ring[..0]) == []
  {
  }

  lemma ContentsSnoc<T>(m: Memory<T>, i: nat)
    requires RingOk(m) && i < |m.ring|
    ensures Contents(m.blocks, m.ring[..i + 1]) == Contents(m.blocks, m.ring[..i]) + Live(At(m, i))
  {
    hide RingOk;
    assert m.ring[..i + 1] == m.ring[..i] + [m.ring[i]];
    ContentsAppend(m.blocks, m.ring[..i], [m.ring[i]]);
    assert m.ring[i] < |m.blocks| by { InRing(m, i); }
    ContentsOne(m.blocks, m.ring[i]);
  }

  lemma InRing<T>(m: Memory<T>, i: nat)
    requires RingOk(m) && i < |m.ring|
    ensures m.ring[i] < |m.blocks|
  {
  }

  /** While nothing is being published the blocks behind the tail block are empty. */
  lemma NothingBehind<T>(s: State<T>)
    requires Inv(s) && !s.p.pc.PStoreTailBlock?
    ensures Queue(s.m) == Contents(s.m.blocks, s.m.ring)
  {
    hide BlocksOk, SizesOk, ConsumerOk, HistoryOk, ProducerOk;
    var m := s.m;
    var rest := m.ring[m.tailIndex + 1..];
    assert m.ring == m.ring[..m.tailIndex + 1] + rest;
    ContentsAppend(m.blocks, m.ring[..m.tailIndex + 1], rest);
    forall i | 0 <= i < |rest| ensures rest[i] < |m.blocks| && |Live(m.blocks[rest[i]])| <= 0 {
      assert rest[i] == m.ring[m.tailIndex + 1 + i];
      assert At(m, m.tailIndex + 1 + i).removed == At(m, m.tailIndex + 1 + i).added;
    }
    hide RingOk, FillOk, Contents;
    ContentsFit(m.blocks, rest, 0);
  }

  lemma {:induction false} RoomOfFixed<T>(blocks: seq<Block<T>>, ids: seq<nat>, b: nat)
    requires b >= 1 && forall i :: 0 <= i < |ids| ==> ids[i] < |blocks| && blocks[ids[i]].size == b
    ensures RoomIn(blocks, ids) == |ids| * (b - 1)
    decreases |ids|
  {
    if ids != [] {
      var n := |ids| - 1;
      RoomOfFixed(blocks, ids[..n], b);
      OneMore(n, b - 1);
    }
  }

  lemma {:induction false} ContentsInRoom<T>(blocks: seq<Block<T>>, ids: seq<nat>)
    requires forall i :: 0 <= i < |ids| ==> ids[i] < |blocks| && |Live(blocks[ids[i]])| < blocks[ids[i]].size
    ensures |Contents(blocks, ids)| <= RoomIn(blocks, ids)
    decreases |ids|
  {
    hide Live;
    if ids != [] {
      var n := |ids| - 1;
      ContentsInRoom(blocks, ids[..n]);
      assert ids == ids[..n] + [ids[n]];
      ContentsAppend(blocks, ids[..n], [ids[n]]);
      ContentsOne(blocks, ids[n]);
    }
  }

  lemma {:induction false} RoomGrows<T>(blocks: seq<Block<T>>, ids: seq<nat>, k: nat)
    requires k <= |ids|
    ensures RoomIn(blocks, ids[..k]) <= RoomIn(blocks, ids)
    decreases |ids| - k
  {
    if k == |ids| {
      assert ids[..k] == ids;
    } else {
      RoomGrows(blocks, ids, k + 1);
      assert ids[..k + 1][..k] == ids[..k];
    }
  }

  /**
    On every run, growing or not, the queue holds at most what max_capacity gives; without an allocating enqueue that is
    the room the constructor made.
   */
  lemma WithinMaxCapacity<T>(s0: State<T>, size: nat, maxBlockSize: nat, rounded: nat, events: seq<Event<T>>)
    requires Constructed(s0, size, maxBlockSize, rounded) && size >= 1
    ensures var m := Run(s0, events).m;
            && |Queue(m)| <= RoomIn(m.blocks, m.ring)
            && ((forall i :: 0 <= i < |events| ==> !Allocates(events[i])) ==> RoomIn(m.blocks, m.ring) == Room(size, maxBlockSize, rounded))
  {
    hide Run, Room, Allocates, BlocksOk, SizesOk, ConsumerOk, HistoryOk, ProducerOk, FillOk;
    FreshOk(s0, size, maxBlockSize, rounded);
    RunKeeps(s0, events);
    var s := Run(s0, events);
    var ids := s.m.ring[..s.m.tailIndex + 1];
    forall i | 0 <= i < |ids| ensures |Live(s.m.blocks[ids[i]])| < s.m.blocks[ids[i]].size {
      Bounded(s, i);
    }
    ContentsInRoom(s.m.blocks, ids);
    RoomGrows(s.m.blocks, s.m.ring, s.m.tailIndex + 1);
    if forall i :: 0 <= i < |events| ==> !Allocates(events[i]) {
      var n, b := FreshFixed(s0, size, maxBlockSize, rounded);
      FixedRun(s0, events, n, b);
      RoomOfFixed(s.m.blocks, s.m.ring, b);
    }
  }

  // ---------------------------------------------------------------------------------------------
  // What one call of the producer adds

  /** From the end of one call to the end of the next: the call adds one element if it succeeds, and none otherwise. */
  ghost predicate OneCall<T>(s: State<T>, s': State<T>) {
    && s'.p.calls >= s.p.calls
    && (s'.p.calls == s.p.calls ==> s'.p == s.p && s'.enqueued == s.enqueued)
    && (s'.p.calls == s.p.calls + 1 ==>
          |s'.enqueued| == |s.enqueued| + (if s'.p.pc.PIdle? && s'.p.returned then 1 else 0))
  }

  lemma OneCallStep<T>(s: State<T>, t: State<T>, e: Event<T>)
    requires s.p.pc.PIdle? && OneCall(s, t) && Inv(t)
    ensures OneCall(s, Step(t, e))
  {
    hide Inv, ProducerStep, ConsumerStep;
    match e
    case BeginEnqueue(_, _) =>
    case ProducerMoves(a) =>
      if !t.p.pc.PIdle? {
        EnqueueCounts(t, a);
        FullSeenByProducer(t, a);
      }
    case BeginConsume(_) =>
    case ConsumerMoves =>
      ConsumerLeavesProducer(t);
      ConsumerLeavesEnqueued(t);
  }

  lemma ConsumerLeavesEnqueued<T>(s: State<T>)
    ensures ConsumerStep(s).enqueued == s.enqueued
  {
    hide Queue;
  }

  lemma {:induction false} OneCallRun<T>(s: State<T>, events: seq<Event<T>>)
    requires Inv(s) && s.p.pc.PIdle?
    ensures OneCall(s, Run(s, events))
    decreases |events|
  {
    hide Inv, Step, OneCall;
    if events == [] {
      NoCallYet(s);
    } else {
      OneCallRun(s, events[..|events| - 1]);
      RunKeeps(s, events[..|events| - 1]);
      OneCallStep(s, Run(s, events[..|events| - 1]), events[|events| - 1]);
    }
  }

  lemma NoCallYet<T>(s: State<T>)
    ensures OneCall(s, s)
  {
  }

  /** And the same for the consumer: only a dequeue or pop that succeeds takes an element. */
  ghost predicate OneTake<T>(s: State<T>, s': State<T>) {
    && s'.c.calls >= s.c.calls
    && (s'.c.calls == s.c.calls ==> s'.c == s.c && s'.dequeued == s.dequeued)
    && (s'.c.calls == s.c.calls + 1 ==>
          |s'.dequeued| == |s.dequeued| + (if s'.c.pc.CIdle? && s'.c.returned && !s'.c.op.Peek? then 1 else 0))
  }

  lemma OneTakeStep<T>(s: State<T>, t: State<T>, e: Event<T>)
    requires s.c.pc.CIdle? && OneTake(s, t) && Inv(t)
    ensures OneTake(s, Step(t, e))
  {
    hide Inv, ProducerStep, ConsumerStep;
    match e
    case BeginEnqueue(_, _) =>
    case ProducerMoves(a) =>
      if !t.p.pc.PIdle? {
        EnqueueCounts(t, a);
      }
    case BeginConsume(_) =>
    case ConsumerMoves =>
      if !t.c.pc.CIdle? {
        DequeueCounts(t);
      }
  }

  lemma {:induction false} OneTakeRun<T>(s: State<T>, events: seq<Event<T>>)
    requires Inv(s) && s.c.pc.CIdle?
    ensures OneTake(s, Run(s, events))
    decreases |events|
  {
    hide Inv, Step;
    if events != [] {
      OneTakeRun(s, events[..|events| - 1]);
      RunKeeps(s, events[..|events| - 1]);
      OneTakeStep(s, Run(s, events[..|events| - 1]), events[|events| - 1]);
    }
  }

  // What a call was begun with stays until the next one begins

  ghost predicate SameCall<T>(s: State<T>, t: State<T>) {
    && t.p.calls >= s.p.calls && s.enqueued <= t.enqueued
    && (t.p.calls == s.p.calls ==> t.p.elem == s.p.elem && t.p.canAlloc == s.p.canAlloc)
  }

  ghost predicate SameTake<T>(s: State<T>, t: State<T>) {
    t.c.calls >= s.c.calls && s.dequeued <= t.dequeued && (t.c.calls == s.c.calls ==> t.c.op == s.c.op)
  }

  ghost predicate KeepsCall<T>(s: State<T>, s': State<T>) {
    s'.p.elem == s.p.elem && s'.p.canAlloc == s.p.canAlloc && s'.p.calls == s.p.calls && s.enqueued <= s'.enqueued
  }

  lemma ProducerKeepsCall<T>(s: State<T>, a: bool)
    ensures KeepsCall(s, ProducerStep(s, a))
  {
    hide ProducerStep, KeepsCall;
    if OnTailBlock(s.p.pc) {
      KeepsCallOnTail(s, a);
    } else if OnNextBlock(s.p.pc) {
      KeepsCallOnNext(s, a);
    } else {
      KeepsCallOnNew(s, a);
    }
  }

  lemma KeepsCallOnTail<T>(s: State<T>, a: bool)
    requires OnTailBlock(s.p.pc)
    ensures KeepsCall(s, ProducerStep(s, a))
  {
    hide Queue, WithBlock, FrontSeen, TailStored;
  }

  lemma KeepsCallOnNext<T>(s: State<T>, a: bool)
    requires OnNextBlock(s.p.pc)
    ensures KeepsCall(s, ProducerStep(s, a))
  {
    hide Queue, WithBlock, FrontSeen, TailStored;
  }

  lemma KeepsCallOnNew<T>(s: State<T>, a: bool)
    requires !OnTailBlock(s.p.pc) && !OnNextBlock(s.p.pc)
    ensures KeepsCall(s, ProducerStep(s, a))
  {
    hide Queue, WithBlock, FrontSeen, TailStored, NewBlock, NewBlockSize, Linked;
  }

  lemma SameStep<T>(s: State<T>, t: State<T>, e: Event<T>)
    requires Inv(t) && SameCall(s, t) && SameTake(s, t)
    ensures SameCall(s, Step(t, e)) && SameTake(s, Step(t, e))
  {
    hide Inv, ProducerStep, ConsumerStep;
    match e
    case BeginEnqueue(_, _) =>
    case ProducerMoves(a) =>
      if !t.p.pc.PIdle? {
        ProducerKeepsCall(t, a);
        EnqueueCounts(t, a);
      }
    case BeginConsume(_) =>
    case ConsumerMoves =>
      if !t.c.pc.CIdle? {
        DequeueCounts(t);
        DequeuedGrows(t);
      }
  }

  lemma {:induction false} SameRun<T>(s: State<T>, events: seq<Event<T>>)
    requires Inv(s)
    ensures SameCall(s, Run(s, events)) && SameTake(s, Run(s, events))
    decreases |events|
  {
    hide Inv, Step;
    if events != [] {
      hide SameCall, SameTake;
      SameRun(s, events[..|events| - 1]);
      RunKeeps(s, events[..|events| - 1]);
      SameStep(s, Run(s, events[..|events| - 1]), events[|events| - 1]);
    }
  }

  /** On every run: a call of enqueue or try_enqueue that has ended added its own element if it returned true, and else nothing. */
  lemma EnqueuesItsElement<T>(s0: State<T>, size: nat, maxBlockSize: nat, rounded: nat, before: seq<Event<T>>, x: T, canAlloc: bool, during: seq<Event<T>>)
    requires Constructed(s0, size, maxBlockSize, rounded) && size >= 1 && Run(s0, before).p.pc.PIdle?
    requires var s' := Run(s0, before + ([BeginEnqueue(x, canAlloc)] + during)); s'.p.pc.PIdle? && s'.p.calls == Run(s0, before).p.calls + 1
    ensures var s, s' := Run(s0, before), Run(s0, before + ([BeginEnqueue(x, canAlloc)] + during));
            s'.enqueued == s.enqueued + (if s'.p.returned then [x] else []) && (!s'.p.returned && canAlloc ==> s'.p.outOfMemory)
  {
    hide Run, Inv, Constructed;
    var call := [BeginEnqueue(x, canAlloc)];
    var s := Run(s0, before);
    var s1 := Step(s, call[0]);
    FreshOk(s0, size, maxBlockSize, rounded);
    RunKeeps(s0, before);
    StepKeeps(s, call[0]);
    RunAppend(s0, before, call + during);
    RunAppend(s, call, during);
    RunOne(s, call[0]);
    OneCallRun(s, call + during);
    SameRun(s1, during);
    ReturnsAreRight(s0, size, maxBlockSize, rounded, before + (call + during));
  }

  /**
    And a call of try_dequeue, pop or peek that has ended: returning true, try_dequeue and pop took the element next in
    order of enqueuing, which try_dequeue gave to its caller; peek gave the front element; nothing else was taken.
   */
  lemma TakesTheFront<T>(s0: State<T>, size: nat, maxBlockSize: nat, rounded: nat, before: seq<Event<T>>, op: ConsumerOp, during: seq<Event<T>>)
    requires Constructed(s0, size, maxBlockSize, rounded) && size >= 1 && Run(s0, before).c.pc.CIdle?
    requires var s' := Run(s0, before + ([BeginConsume(op)] + during)); s'.c.pc.CIdle? && s'.c.calls == Run(s0, before).c.calls + 1
    ensures var s, s' := Run(s0, before), Run(s0, before + ([BeginConsume(op)] + during));
            var taken := s'.c.returned && !op.Peek?;
            && (taken ==> |s.dequeued| < |s'.enqueued|)
            && s'.dequeued == s.dequeued + (if taken then [s'.enqueued[|s.dequeued|]] else [])
            && (taken && op.TryDequeue? ==> s'.c.result == Some(s'.enqueued[|s.dequeued|]))
            && (s'.c.returned && op.Peek? ==> Queue(s'.m) != [] && s'.c.result == Some(Queue(s'.m)[0]))
  {
    hide Run, Inv, Constructed, Queue;
    var call := [BeginConsume(op)];
    var s := Run(s0, before);
    var s1 := Step(s, call[0]);
    FreshOk(s0, size, maxBlockSize, rounded);
    RunKeeps(s0, before);
    StepKeeps(s, call[0]);
    RunAppend(s0, before, call + during);
    RunAppend(s, call, during);
    RunOne(s, call[0]);
    OneTakeRun(s, call + during);
    SameRun(s1, during);
    ReturnsAreRight(s0, size, maxBlockSize, rounded, before + (call + during));
    FifoOnEveryRun(s0, size, maxBlockSize, rounded, before + (call + during));
  }

  lemma RunOne<T>(s: State<T>, e: Event<T>)
    ensures Run(s, [e]) == Step(s, e)
  {
    hide Step;
    assert [e][..0] == [];
    assert Run(s, []) == s;
  }

  lemma {:induction false} RunAppend<T>(s: State<T>, before: seq<Event<T>>, during: seq<Event<T>>)
    ensures Run(s, before + during) == Run(Run(s, before), during)
    decreases |during|
  {
    hide Step;
    if during == [] {
      assert before + during == before;
    } else {
      var n := |during| - 1;
      RunAppend(s, before, during[..n]);
      assert (before + during)[..|before + during| - 1] == before + during[..n];
    }
  }

  /** A try_enqueue that begins with every slot but the spare ones taken, and while nothing is dequeued, fails. */
  lemma FullMeansFalse<T>(s0: State<T>, size: nat, maxBlockSize: nat, rounded: nat, before: seq<Event<T>>, during: seq<Event<T>>)
    requires Constructed(s0, size, maxBlockSize, rounded) && size >= 1
    requires forall i :: 0 <= i < |before + during| ==> !Allocates((before + during)[i])
    requires var s := Run(s0, before); s.p.pc.PIdle? && |Queue(s.m)| == Room(size, maxBlockSize, rounded)
    requires var s, s' := Run(s0, before), Run(s0, before + during);
             s'.p.pc.PIdle? && s'.p.calls == s.p.calls + 1 && s'.dequeued == s.dequeued
    ensures !Run(s0, before + during).p.returned
  {
    hide Run, Inv, Queue, Room, Constructed, Allocates;
    var s, s' := Run(s0, before), Run(s0, before + during);
    FreshOk(s0, size, maxBlockSize, rounded);
    RunKeeps(s0, before);
    FifoOnEveryRun(s0, size, maxBlockSize, rounded, before);
    FifoOnEveryRun(s0, size, maxBlockSize, rounded, before + during);
    NeverMoreThanRoom(s0, size, maxBlockSize, rounded, before + during);
    RunAppend(s0, before, during);
    OneCallRun(s, during);
  }

  // ---------------------------------------------------------------------------------------------
  // Nothing dequeued yet: the queue fills up to the last slot

  /** The block the consumer would empty is full once the producer has left it, or is about to. */
  ghost predicate Untouched<T>(s: State<T>) {
    s.dequeued == [] && s.m.frontBlock < |s.m.blocks| && (s.m.tailIndex > 0 || FoundFull(s.p.pc)) ==> Full(s.m.blocks[s.m.frontBlock])
  }

  /** The counters and the size of the front block. */
  predicate SameFront<T>(m: Memory<T>, m': Memory<T>) {
    && m'.frontBlock == m.frontBlock < |m.blocks| <= |m'.blocks|
    && var b, b' := m.blocks[m.frontBlock], m'.blocks[m.frontBlock];
       b'.size == b.size && b'.added == b.added && b'.removed == b.removed
  }

  /** Where the producer writes to a block behind the tail block. */
  predicate WritesBehind(pc: ProducerPc) {
    pc.PLoadNextFront? || pc.PNextConstruct? || pc.PNextStoreTail?
  }

  /** What a step of the producer does, as far as the front block is concerned. */
  ghost predicate FrontKept<T>(s: State<T>, s': State<T>) {
    && s.p.tb < |s.m.blocks| && SameFront(s.m, s'.m) && s'.dequeued == s.dequeued
    && (s'.m.tailIndex > 0 ==> s.m.tailIndex > 0 || s.p.pc.PStoreTailBlock?)
    && (FoundFull(s'.p.pc) ==> FoundFull(s.p.pc) || (s.p.pc.PLoadFront? && s.p.nextTail == s.m.blocks[s.p.tb].front))
  }

  lemma ProducerFront<T>(s: State<T>, a: bool)
    requires s.m.frontBlock < |s.m.blocks| && s.p.tb < |s.m.blocks| && s.p.nb < |s.m.blocks| && s.p.elem.Some?
    requires s.m.blocks[s.p.tb].size > 0 && s.m.blocks[s.p.nb].size > 0 && (OnTailBlock(s.p.pc) || OnNextBlock(s.p.pc)) && !s.p.pc.PStoreTail?
    requires WritesBehind(s.p.pc) ==> s.p.nb != s.m.frontBlock
    requires ProducerStep(s, a).p.pc != PCrashed
    ensures FrontKept(s, ProducerStep(s, a))
  {
    hide ProducerStep, FrontKept;
    if s.p.pc.PLoadFront? || s.p.pc.PConstruct? {
      FrontWritten(s, a);
    } else if OnTailBlock(s.p.pc) {
      FrontRead(s, a);
    } else if s.p.pc.PNextConstruct? {
      FrontBuilt(s, a);
    } else if WritesBehind(s.p.pc) {
      FrontBefore(s, a);
    } else {
      FrontPassed(s, a);
    }
  }

  lemma FrontRead<T>(s: State<T>, a: bool)
    requires s.m.frontBlock < |s.m.blocks| && s.p.tb < |s.m.blocks| && ReadsOnly(s.p.pc) && ProducerStep(s, a).p.pc != PCrashed
    ensures FrontKept(s, ProducerStep(s, a))
  {
    hide ProducerStep;
    MemoryStays(s, a);
  }

  /** Loads that leave the memory as it is. */
  predicate ReadsOnly(pc: ProducerPc) {
    pc.PLoadLocalFront? || pc.PLoadTail? || pc.PLoadNext? || pc.PLoadFrontBlock? || pc.PReloadNext?
  }

  lemma MemoryStays<T>(s: State<T>, a: bool)
    requires ReadsOnly(s.p.pc) && ProducerStep(s, a).p.pc != PCrashed
    ensures var s' := ProducerStep(s, a); s'.m == s.m && s'.dequeued == s.dequeued && (FoundFull(s'.p.pc) ==> FoundFull(s.p.pc))
  {
    hide Queue, WithBlock, FrontSeen, TailStored, NewBlock, NewBlockSize, Linked, SpscQueue.Construct;
  }

  lemma FrontWritten<T>(s: State<T>, a: bool)
    requires s.m.frontBlock < |s.m.blocks| && s.p.tb < |s.m.blocks| && s.p.nb < |s.m.blocks| && s.p.elem.Some?
    requires s.m.blocks[s.p.tb].size > 0 && s.m.blocks[s.p.nb].size > 0 && (s.p.pc.PLoadFront? || s.p.pc.PConstruct?)
    requires WritesBehind(s.p.pc) ==> s.p.nb != s.m.frontBlock
    requires ProducerStep(s, a).p.pc != PCrashed
    ensures FrontKept(s, ProducerStep(s, a))
  {
    hide Queue, TailStored, NewBlock, NewBlockSize, Linked;
  }

  lemma FrontBefore<T>(s: State<T>, a: bool)
    requires s.m.frontBlock < |s.m.blocks| && s.p.tb < |s.m.blocks| && s.p.nb < |s.m.blocks| && s.p.elem.Some?
    requires s.m.blocks[s.p.tb].size > 0 && s.m.blocks[s.p.nb].size > 0 && (s.p.pc.PLoadNextFront? || s.p.pc.PNextStoreTail?)
    requires WritesBehind(s.p.pc) ==> s.p.nb != s.m.frontBlock
    requires ProducerStep(s, a).p.pc != PCrashed
    ensures FrontKept(s, ProducerStep(s, a))
  {
    hide Queue, NewBlock, NewBlockSize, Linked;
  }

  lemma FrontBuilt<T>(s: State<T>, a: bool)
    requires s.m.frontBlock < |s.m.blocks| && s.p.tb < |s.m.blocks| && s.p.nb < |s.m.blocks| && s.p.elem.Some?
    requires s.m.blocks[s.p.tb].size > 0 && s.m.blocks[s.p.nb].size > 0 && s.p.pc.PNextConstruct?
    requires WritesBehind(s.p.pc) ==> s.p.nb != s.m.frontBlock
    requires ProducerStep(s, a).p.pc != PCrashed
    ensures FrontKept(s, ProducerStep(s, a))
  {
    hide Queue, FrontSeen, TailStored, NewBlock, NewBlockSize, Linked;
  }

  lemma FrontPassed<T>(s: State<T>, a: bool)
    requires s.m.frontBlock < |s.m.blocks| && s.p.tb < |s.m.blocks| && s.p.nb < |s.m.blocks| && s.p.elem.Some?
    requires s.m.blocks[s.p.tb].size > 0 && s.m.blocks[s.p.nb].size > 0 && OnNextBlock(s.p.pc) && !WritesBehind(s.p.pc)
    requires WritesBehind(s.p.pc) ==> s.p.nb != s.m.frontBlock
    requires ProducerStep(s, a).p.pc != PCrashed
    ensures FrontKept(s, ProducerStep(s, a))
  {
    hide Queue, WithBlock, FrontSeen, TailStored, NewBlock, NewBlockSize, Linked;
  }

  lemma ProducerKnows<T>(s: State<T>)
    requires Inv(s) && !s.p.pc.PIdle?
    ensures s.m.frontBlock < |s.m.blocks| && s.p.tb < |s.m.blocks| && s.p.nb < |s.m.blocks| && s.p.elem.Some? && s.p.tb == s.m.tailBlock
    ensures s.m.blocks[s.p.tb].size > 0 && s.m.blocks[s.p.nb].size > 0
    ensures WritesBehind(s.p.pc) ==> s.p.nb != s.m.frontBlock
    ensures s.m.tailIndex == 0 <==> s.m.tailBlock == s.m.frontBlock
    ensures s.p.pc.PLoadFront? ==> s.p.nextTail == (s.m.blocks[s.p.tb].tail + 1) % s.m.blocks[s.p.tb].size
    ensures CountersOk(s.m.blocks[s.m.tailBlock])
  {
    hide BlocksOk, FillOk, SizesOk, ConsumerOk, HistoryOk, CountersOk, BlockOk;
    SpscProducer.AtCounters(s, s.m.tailIndex);
  }

  lemma NotCrashed<T>(s: State<T>)
    requires Inv(s)
    ensures s.p.pc != PCrashed
  {
  }

  lemma UntouchedByProducer<T>(s: State<T>, a: bool)
    requires Inv(s) && Untouched(s) && !s.p.pc.PIdle? && !Allocating(s.p.pc)
    ensures Untouched(ProducerStep(s, a))
  {
    hide Inv, ProducerStep, Untouched, CountersOk;
    ProducerKnows(s);
    NotCrashed(s);
    SpscProducer.ProducerKeeps(s, a);
    NotCrashed(ProducerStep(s, a));
    if s.p.pc.PStoreTail? {
      StoreKeepsFront(s, a);
    } else {
      ProducerFront(s, a);
      UntouchedFrom(s, ProducerStep(s, a));
    }
  }

  lemma UntouchedFrom<T>(s: State<T>, s': State<T>)
    requires Untouched(s) && FrontKept(s, s') && (s.m.tailIndex == 0 <==> s.m.tailBlock == s.m.frontBlock) && s.p.tb == s.m.tailBlock
    requires CountersOk(s.m.blocks[s.m.tailBlock])
    requires s.p.pc.PLoadFront? ==> s.p.nextTail == (s.m.blocks[s.p.tb].tail + 1) % s.m.blocks[s.p.tb].size
    ensures Untouched(s')
  {
    FullTest(s.m.blocks[s.m.tailBlock]);
    hide CountersOk;
  }

  lemma StoreKeepsFront<T>(s: State<T>, a: bool)
    requires s.p.pc.PStoreTail? && Untouched(s) && s.p.tb == s.m.tailBlock && s.p.elem.Some? && s.p.tb < |s.m.blocks| && s.p.nb < |s.m.blocks|
    requires s.m.blocks[s.p.tb].size > 0 && s.m.blocks[s.p.nb].size > 0 && (s.m.tailIndex == 0 <==> s.m.tailBlock == s.m.frontBlock)
    ensures Untouched(ProducerStep(s, a))
  {
  }

  lemma UntouchedByConsumer<T>(s: State<T>)
    requires Inv(s) && Untouched(s) && !s.c.pc.CIdle?
    ensures Untouched(ConsumerStep(s))
  {
    hide Queue, BlocksOk, FillOk, SizesOk, ProducerOk, HistoryOk, Rotated, BlockOk, CountersOk;
    SpscProducer.AtCounters(s, 0);
    EmptyIsNotFull(s.m.blocks[s.m.frontBlock]);
  }

  lemma EmptyIsNotFull<T>(b: Block<T>)
    requires CountersOk(b)
    ensures Full(b) ==> b.removed < b.added
  {
  }

  /** A call that failed before anything was dequeued found every slot taken. */
  ghost predicate FailedFull<T>(s: State<T>, room: nat) {
    s.p.pc.PIdle? && s.p.calls > 0 && !s.p.returned && s.dequeued == [] ==> |s.enqueued| == room
  }

  /** The tail block is full and the block behind it is the front block: every block is full. */
  lemma AllFull<T>(s: State<T>, n: nat, b: nat)
    requires Inv(s) && Fixed(s, n, b) && b >= 1 && Untouched(s) && s.dequeued == [] && s.p.pc.PLoadFrontBlock? && s.p.nb == s.m.frontBlock
    ensures |s.enqueued| == n * (b - 1)
  {
    hide Inv, Queue, CountersOk, Full;
    EveryBlockFull(s);
    forall i | 0 <= i < |s.m.ring| ensures |Live(s.m.blocks[s.m.ring[i]])| >= b - 1 {
      SpscProducer.AtCounters(s, i);
      FullHolds(At(s.m, i));
    }
    SpscProducer.FullBlocks(s.m.blocks, s.m.ring, b - 1);
    WholeRing(s.m);
    QueueFits(s, n, b);
    NothingTaken(s);
  }

  lemma EveryBlockFull<T>(s: State<T>)
    requires Inv(s) && Untouched(s) && s.dequeued == [] && s.p.pc.PLoadFrontBlock? && s.p.nb == s.m.frontBlock
    ensures RingOk(s.m) && s.m.tailIndex + 1 == |s.m.ring| && forall i :: 0 <= i < |s.m.ring| ==> Full(At(s.m, i))
  {
    hide BlocksOk, SizesOk, ConsumerOk, HistoryOk, CountersOk, BlockOk, Full;
    var m := s.m;
    assert m.ring[if m.tailIndex + 1 == |m.ring| then 0 else m.tailIndex + 1] == m.ring[0];
  }

  lemma NothingTaken<T>(s: State<T>)
    requires Inv(s) && s.dequeued == []
    ensures s.enqueued == Queue(s.m)
  {
    hide RingOk, BlocksOk, SizesOk, ConsumerOk, ProducerOk, FillOk, Queue;
  }

  lemma FullHolds<T>(b: Block<T>)
    requires CountersOk(b) && Full(b)
    ensures |Live(b)| == b.size - 1
  {
  }

  lemma WholeRing<T>(m: Memory<T>)
    requires m.tailIndex + 1 == |m.ring|
    ensures Queue(m) == Contents(m.blocks, m.ring)
  {
    assert m.ring[..m.tailIndex + 1] == m.ring;
  }

  lemma FailsOnlyThere<T>(s: State<T>, a: bool)
    requires !s.p.pc.PIdle? && !Allocating(s.p.pc) && !s.p.canAlloc && ProducerStep(s, a).p.pc.PIdle? && !ProducerStep(s, a).p.returned
    ensures s.p.pc.PLoadFrontBlock? && s.p.nb == s.m.frontBlock && ProducerStep(s, a).enqueued == s.enqueued && ProducerStep(s, a).dequeued == s.dequeued
  {
    hide Queue, WithBlock, FrontSeen, TailStored, Linked, NewBlock, NewBlockSize;
  }

  ghost predicate Filling<T>(s: State<T>, n: nat, b: nat, room: nat) {
    b >= 1 && room == n * (b - 1) && Inv(s) && Fixed(s, n, b) && Untouched(s) && FailedFull(s, room)
  }

  lemma FillingStep<T>(s: State<T>, e: Event<T>, n: nat, b: nat, room: nat)
    requires Filling(s, n, b, room) && !Allocates(e)
    ensures Filling(Step(s, e), n, b, room)
  {
    hide Inv, Step, Untouched, Fixed, FailedFull;
    StepKeeps(s, e);
    FixedStep(s, e, n, b);
    UntouchedStep(s, e, n, b);
    FailedStep(s, e, n, b, room);
  }

  lemma UntouchedStep<T>(s: State<T>, e: Event<T>, n: nat, b: nat)
    requires Inv(s) && Fixed(s, n, b) && Untouched(s) && !Allocates(e)
    ensures Untouched(Step(s, e))
  {
    hide Inv, ProducerStep, ConsumerStep, Full;
    match e
    case BeginEnqueue(_, _) =>
    case ProducerMoves(a) => if !s.p.pc.PIdle? { UntouchedByProducer(s, a); }
    case BeginConsume(_) =>
    case ConsumerMoves => if !s.c.pc.CIdle? { UntouchedByConsumer(s); }
  }

  lemma FailedStep<T>(s: State<T>, e: Event<T>, n: nat, b: nat, room: nat)
    requires Inv(s) && Fixed(s, n, b) && Untouched(s) && b >= 1 && room == n * (b - 1) && FailedFull(s, room) && !Allocates(e)
    ensures FailedFull(Step(s, e), room)
  {
    hide Inv, ProducerStep, ConsumerStep, Untouched;
    match e
    case BeginEnqueue(_, _) =>
    case ProducerMoves(a) =>
      if !s.p.pc.PIdle? && ProducerStep(s, a).p.pc.PIdle? && !ProducerStep(s, a).p.returned {
        FailsOnlyThere(s, a);
        if s.dequeued == [] {
          AllFull(s, n, b);
        }
      }
    case BeginConsume(_) =>
    case ConsumerMoves =>
      ConsumerLeavesProducer(s);
      ConsumerLeavesEnqueued(s);
      DequeuedGrows(s);
  }

  lemma DequeuedGrows<T>(s: State<T>)
    ensures s.dequeued <= ConsumerStep(s).dequeued
  {
    hide Queue;
  }

  lemma {:induction false} FillingRun<T>(s0: State<T>, events: seq<Event<T>>, n: nat, b: nat, room: nat)
    requires Filling(s0, n, b, room) && forall i :: 0 <= i < |events| ==> !Allocates(events[i])
    ensures Filling(Run(s0, events), n, b, room)
    decreases |events|
  {
    hide Step, Filling, Allocates;
    if events != [] {
      FillingRun(s0, events[..|events| - 1], n, b, room);
      FillingStep(Run(s0, events[..|events| - 1]), events[|events| - 1], n, b, room);
    }
  }

  /** As long as nothing was dequeued, a try_enqueue succeeds exactly when a slot that is not spare is left. */
  lemma FillsToTheLastSlot<T>(s0: State<T>, size: nat, maxBlockSize: nat, rounded: nat, before: seq<Event<T>>, during: seq<Event<T>>)
    requires Constructed(s0, size, maxBlockSize, rounded) && size >= 1
    requires forall i :: 0 <= i < |before + during| ==> !Allocates((before + during)[i])
    requires var s, s' := Run(s0, before), Run(s0, before + during);
             s.p.pc.PIdle? && s'.p.pc.PIdle? && s'.p.calls == s.p.calls + 1 && s'.dequeued == s.dequeued == []
    ensures Run(s0, before + during).p.returned <==> |Queue(Run(s0, before).m)| < Room(size, maxBlockSize, rounded)
  {
    hide Run, Queue, Room, Allocates, RingOk, SizesOk, BlocksOk, FillOk, ProducerOk, ConsumerOk;
    var s, s' := Run(s0, before), Run(s0, before + during);
    FreshOk(s0, size, maxBlockSize, rounded);
    FifoOnEveryRun(s0, size, maxBlockSize, rounded, before);
    NeverMoreThanRoom(s0, size, maxBlockSize, rounded, before + during);
    FifoOnEveryRun(s0, size, maxBlockSize, rounded, before + during);
    RunKeeps(s0, before);
    RunAppend(s0, before, during);
    OneCallRun(s, during);
    var n, b := FreshFixed(s0, size, maxBlockSize, rounded);
    FillingRun(s0, before + during, n, b, Room(size, maxBlockSize, rounded));
  }

  // ---------------------------------------------------------------------------------------------
  // A queue that grows

  /** The largest block there is. */
  predicate IsLargest<T>(blocks: seq<Block<T>>, largest: nat) {
    (forall i :: 0 <= i < |blocks| ==> blocks[i].size <= largest) && exists i :: 0 <= i < |blocks| && blocks[i].size == largest
  }

  predicate GrowthOk<T>(m: Memory<T>, maxBlockSize: nat) {
    m.maxBlockSize == maxBlockSize && IsLargest(m.blocks, m.largestBlockSize) && m.largestBlockSize <= maxBlockSize * 2
  }

  lemma MaxKept<T>(s: State<T>, e: Event<T>)
    ensures Step(s, e).m.maxBlockSize == s.m.maxBlockSize
  {
    hide Queue;
  }

  lemma GrowthStep<T>(s: State<T>, e: Event<T>, maxBlockSize: nat)
    requires GrowthOk(s.m, maxBlockSize)
    ensures GrowthOk(Step(s, e).m, maxBlockSize)
    ensures SizesGrow(s.m, Step(s, e).m)
  {
    MaxKept(s, e);
    hide ProducerStep, ConsumerStep;
    ConsumerSizes(s);
    var m' := Step(s, e).m;
    if e.ProducerMoves? {
      ProducerSizes(s, e.allocates);
    }
    var i :| 0 <= i < |s.m.blocks| && s.m.blocks[i].size == s.m.largestBlockSize;
    assert m'.blocks[i].size == s.m.largestBlockSize;
    assert |m'.blocks| > |s.m.blocks| ==> m'.blocks[|s.m.blocks|].size == m'.largestBlockSize;
  }

  lemma {:induction false} GrowthRun<T>(s0: State<T>, events: seq<Event<T>>, maxBlockSize: nat)
    requires GrowthOk(s0.m, maxBlockSize)
    ensures GrowthOk(Run(s0, events).m, maxBlockSize)
    decreases |events|
  {
    hide Step, GrowthOk, SizesGrow;
    if events != [] {
      GrowthRun(s0, events[..|events| - 1], maxBlockSize);
      GrowthStep(Run(s0, events[..|events| - 1]), events[|events| - 1], maxBlockSize);
    }
  }

  /**
    On every run: a step adds at most one block, twice as large as the largest there is while that is below the maximal
    block size, and as large from there on; so no block is larger than twice the maximal size, and none changes its size.
   */
  lemma NewBlocksDouble<T>(s0: State<T>, size: nat, maxBlockSize: nat, rounded: nat, events: seq<Event<T>>, e: Event<T>, largest: nat)
    requires Constructed(s0, size, maxBlockSize, rounded) && IsLargest(Run(s0, events).m.blocks, largest)
    ensures var blocks, blocks' := Run(s0, events).m.blocks, Step(Run(s0, events), e).m.blocks;
            && largest <= maxBlockSize * 2
            && |blocks| <= |blocks'| <= |blocks| + 1 && (forall i :: 0 <= i < |blocks| ==> blocks'[i].size == blocks[i].size)
            && (|blocks'| > |blocks| ==> blocks'[|blocks|].size == if largest < maxBlockSize then largest * 2 else largest)
  {
    FreshGrowth(s0, size, maxBlockSize, rounded);
    hide Run, Step, Constructed;
    GrowthRun(s0, events, maxBlockSize);
    GrowthStep(Run(s0, events), e, maxBlockSize);
  }

  lemma FreshGrowth<T>(s: State<T>, size: nat, maxBlockSize: nat, rounded: nat)
    requires Constructed(s, size, maxBlockSize, rounded)
    ensures GrowthOk(s.m, maxBlockSize)
  {
    if rounded > maxBlockSize * 2 {
      RoomForAll(size, rounded, maxBlockSize);
    }
    assert |s.m.blocks| >= 1 && s.m.blocks[0].size == s.m.largestBlockSize;
  }
}
