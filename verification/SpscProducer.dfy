/** Every step of the producer keeps the invariant. */
module SpscProducer {
  import opened Wrappers
  import opened SpscQueue
  import opened SpscInvariant
  import opened SpscFrames

  // ---------------------------------------------------------------------------------------------
  // Steps that change no shared memory

  lemma MovesLocally<T>(s: State<T>, p: Producer<T>)
    requires Inv(s) && ProducerOk(s.m, p)
    requires Pending(p) == Pending(s.p) && PendingAt(s.m, p) == PendingAt(s.m, s.p)
    requires p.pc.PStoreTailBlock? == s.p.pc.PStoreTailBlock?
    requires p.pc.PIdle? ==> !p.returned
    ensures Inv(s.(p := p))
  {
    hide RingOk, BlocksOk, FillOk, SizesOk, ConsumerOk, ProducerOk, Queue, Pending, PendingAt;
  }

  lemma TailOk<T>(s: State<T>)
    requires Inv(s)
    ensures BlockOk(s.m.blocks[s.m.tailBlock], s.c.pc.CStoreFront? && s.m.tailIndex == 0,
                    if s.p.pc.PNextStoreTail? then None else Pending(s.p))
    ensures CountersOk(s.m.blocks[s.m.tailBlock])
  {
    hide Slot, CountersOk, Queue, ProducerOk, ConsumerOk, FillOk, HistoryOk;
    assert At(s.m, s.m.tailIndex) == s.m.blocks[s.m.tailBlock];
  }

  lemma Begins<T>(s: State<T>, e: T, canAlloc: bool)
    requires Inv(s) && s.p.pc.PIdle?
    ensures Inv(BeginEnqueueStep(s, e, canAlloc))
  {
    hide BlockOk, BlocksOk, FillOk, SizesOk, ConsumerOk, HistoryOk;
    TailOk(s);
    MovesLocally(s, BeginEnqueueStep(s, e, canAlloc).p);
  }

  lemma LoadsLocally<T>(s: State<T>, a: bool)
    requires Inv(s) && (s.p.pc.PLoadLocalFront? || s.p.pc.PLoadTail? || s.p.pc.PLoadNext? || s.p.pc.PReloadNext?)
    ensures Inv(ProducerStep(s, a))
  {
    hide BlockOk, BlocksOk, FillOk, SizesOk, ConsumerOk, HistoryOk;
    TailOk(s);
    FullTest(s.m.blocks[s.m.tailBlock]);
    NextHasRoom(s);
    MovesLocally(s, ProducerStep(s, a).p);
  }

  /** The block behind the tail block exists. */
  lemma NextHasRoom<T>(s: State<T>)
    requires Inv(s)
    ensures 0 <= s.m.blocks[s.m.tailBlock].next < |s.m.blocks|
    ensures s.m.blocks[s.m.blocks[s.m.tailBlock].next].size >= 2
    ensures s.m.tailIndex + 1 < |s.m.ring| ==> s.m.blocks[s.m.tailBlock].next == s.m.ring[s.m.tailIndex + 1]
    ensures s.m.tailIndex + 1 == |s.m.ring| ==> s.m.blocks[s.m.tailBlock].next == s.m.frontBlock
  {
    hide BlockOk, BlocksOk, FillOk, ProducerOk, ConsumerOk, HistoryOk;
    var i := if s.m.tailIndex + 1 == |s.m.ring| then 0 else s.m.tailIndex + 1;
    assert At(s.m, i).size >= 2;
  }

  lemma LoadsFrontBlock<T>(s: State<T>, a: bool)
    requires Inv(s) && s.p.pc.PLoadFrontBlock?
    ensures Inv(ProducerStep(s, a))
    ensures !s.p.canAlloc && ProducerStep(s, a).p.pc.PIdle? ==> ProducerStep(s, a).p.sawFull
  {
    hide BlockOk, BlocksOk, FillOk, SizesOk, ConsumerOk, HistoryOk, Queue;
    NextHasRoom(s);
    if s.p.nb == s.m.frontBlock {
      assert s.m.tailIndex + 1 == |s.m.ring|;
      if |s.m.ring| > 1 {
        RingIsFull(s);
      }
    }
    MovesLocally(s, ProducerStep(s, a).p);
  }

  /** When the tail block is the last of the ring and full, everything but the front block is full. */
  lemma RingIsFull<T>(s: State<T>)
    requires Inv(s) && s.m.tailIndex + 1 == |s.m.ring| > 1 && FoundFull(s.p.pc)
    ensures |Queue(s.m)| >= s.m.capacity
  {
    hide BlockOk, ConsumerOk, HistoryOk, Contents;
    var m := s.m;
    forall i | 1 <= i < |m.ring|
      ensures |Live(m.blocks[m.ring[i]])| >= m.minSize - 1
    {
      AtCounters(s, i);
      assert Full(At(m, i));
    }
    QueueByFront(m);
    assert m.ring[1..m.tailIndex + 1] == m.ring[1..];
    FullBlocks(m.blocks, m.ring[1..], m.minSize - 1);
  }

  lemma AtCounters<T>(s: State<T>, i: nat)
    requires Inv(s) && i < |s.m.ring|
    ensures CountersOk(At(s.m, i)) && At(s.m, i).size >= s.m.minSize
  {
    hide SlotsOk, CountersOk, FillOk, ProducerOk, ConsumerOk, HistoryOk;
    var b := At(s.m, i);
    assert exists d, v :: BlockOk(b, d, v);
  }

  lemma {:induction false} FullBlocks<T>(blocks: seq<Block<T>>, ids: seq<nat>, each: nat)
    requires forall i :: 0 <= i < |ids| ==> ids[i] < |blocks| && |Live(blocks[ids[i]])| >= each
    ensures |Contents(blocks, ids)| >= |ids| * each
  {
    if ids != [] {
      FullBlocks(blocks, ids[1..], each);
      assert |ids| * each == each + (|ids| - 1) * each;
    }
  }

  lemma LoadsNextTail<T>(s: State<T>, a: bool)
    requires Inv(s) && s.p.pc.PLoadNextTail?
    ensures Inv(ProducerStep(s, a))
  {
    hide BlockOk, BlocksOk, SizesOk, ConsumerOk, HistoryOk, CountersOk;
    AtCounters(s, s.m.tailIndex + 1);
    EmptyTest(At(s.m, s.m.tailIndex + 1));
    MovesLocally(s, ProducerStep(s, a).p);
  }

  // ---------------------------------------------------------------------------------------------
  // Steps on the tail block

  /** Assembles the invariant after a step that changes memory to m and locals to p without touching the histories. */
  lemma Assembles<T>(s: State<T>, m: Memory<T>, p: Producer<T>)
    requires Inv(s) && RingOk(m) && SizesOk(m) && FillOk(m, p.pc.PStoreTailBlock?)
    requires BlocksOk(m, s.c.pc.CStoreFront?, PendingAt(m, p), Pending(p))
    requires ProducerOk(m, p) && ConsumerOk(m, s.c) && Queue(m) == Queue(s.m) && !p.pc.PIdle?
    ensures Inv(s.(m := m, p := p))
  {
    hide RingOk, BlocksOk, FillOk, SizesOk, ConsumerOk, ProducerOk, Queue, Pending, PendingAt;
  }

  lemma LoadsFront<T>(s: State<T>, a: bool)
    requires Inv(s) && s.p.pc.PLoadFront?
    ensures Inv(ProducerStep(s, a))
  {
    hide BlockOk, BlocksOk, FillOk, SizesOk, ConsumerOk, HistoryOk, Queue, CountersOk;
    var m, i, d, p' := s.m, s.m.tailIndex, s.c.pc.CStoreFront?, ProducerStep(s, a).p;
    var b := FrontSeen(At(m, i));
    TailOk(s);
    Glimpses(At(m, i), d && i == 0, None);
    QuietUpdate(m, i, b, d, i, None, d, i, None, false);
    var m' := WithBlock(m, m.ring[i], b);
    ConsumerStable(m, m', s.c);
    assert ProducerOk(m', p') by { FullFound(s, m', p'); }
    Assembles(s, m', p');
  }

  lemma FullFound<T>(s: State<T>, m': Memory<T>, p': Producer<T>)
    requires Inv(s) && s.p.pc.PLoadFront?
    requires m' == WithBlock(s.m, s.m.tailBlock, FrontSeen(s.m.blocks[s.m.tailBlock])) && RingOk(m')
    requires p' == s.p.(pc := if s.p.nextTail != s.m.blocks[s.m.tailBlock].front then PConstruct else PLoadNext,
                        sawFull := s.p.sawFull || |Queue(s.m)| >= s.m.capacity)
    ensures ProducerOk(m', p')
  {
    hide BlockOk, BlocksOk, FillOk, ConsumerOk, HistoryOk, Queue;
    TailOk(s);
    FullTest(s.m.blocks[s.m.tailBlock]);
    if p'.pc.PLoadNext? && |s.m.ring| == 1 {
      SingleBlock(s);
    }
  }

  lemma SingleBlock<T>(s: State<T>)
    requires Inv(s) && |s.m.ring| == 1 && Full(s.m.blocks[s.m.tailBlock])
    ensures |Queue(s.m)| >= s.m.capacity
  {
    hide BlockOk, BlocksOk, FillOk, ConsumerOk, HistoryOk, Contents;
    TailOk(s);
    QueueByTail(s.m);
    assert At(s.m, 0) == s.m.blocks[s.m.tailBlock];
  }

  lemma ConstructIs<T>(s: State<T>, a: bool)
    requires Inv(s) && s.p.pc.PConstruct?
    ensures var b := At(s.m, s.m.tailIndex);
            && b.tail < |b.slots|
            && ProducerStep(s, a) == s.(m := WithBlock(s.m, s.m.ring[s.m.tailIndex], b.(slots := b.slots[b.tail := s.p.elem])),
                                        p := s.p.(pc := PStoreTail))
  {
    hide BlockOk, BlocksOk, FillOk, SizesOk, ConsumerOk, HistoryOk, Queue;
    TailOk(s);
    Constructs(At(s.m, s.m.tailIndex), s.c.pc.CStoreFront? && s.m.tailIndex == 0, s.p.elem);
  }

  lemma ConstructsElement<T>(s: State<T>, a: bool)
    requires Inv(s) && s.p.pc.PConstruct?
    ensures Inv(ProducerStep(s, a))
  {
    hide BlockOk, BlocksOk, FillOk, SizesOk, ConsumerOk, HistoryOk, Queue, ProducerStep;
    ConstructIs(s, a);
    var m, i, d, p' := s.m, s.m.tailIndex, s.c.pc.CStoreFront?, s.p.(pc := PStoreTail);
    TailOk(s);
    Constructs(At(m, i), d && i == 0, s.p.elem);
    var b := At(m, i).(slots := At(m, i).slots[At(m, i).tail := s.p.elem]);
    QuietUpdate(m, i, b, d, i, None, d, i, s.p.elem, false);
    var m' := WithBlock(m, m.ring[i], b);
    ConsumerStable(m, m', s.c);
    Assembles(s, m', p');
  }

  /** Assembles the invariant after a step that publishes the element of the call. */
  lemma Publishes<T>(s: State<T>, m: Memory<T>)
    requires Inv(s) && s.p.elem.Some? && RingOk(m) && SizesOk(m) && FillOk(m, false)
    requires BlocksOk(m, s.c.pc.CStoreFront?, m.tailIndex, None)
    requires ProducerOk(m, PReturn(s.p, true)) && ConsumerOk(m, s.c) && Queue(m) == Queue(s.m) + [s.p.elem.value]
    ensures Inv(s.(m := m, p := PReturn(s.p, true), enqueued := s.enqueued + [s.p.elem.value]))
  {
    hide RingOk, BlocksOk, FillOk, SizesOk, ConsumerOk, ProducerOk, Queue;
  }

  lemma StoreTailIs<T>(s: State<T>, a: bool)
    requires Inv(s) && s.p.pc.PStoreTail?
    ensures s.p.elem.Some?
    ensures ProducerStep(s, a) ==
            s.(m := WithBlock(s.m, s.m.ring[s.m.tailIndex], TailStored(At(s.m, s.m.tailIndex), s.p.nextTail, s.p.elem.value)),
               p := PReturn(s.p, true), enqueued := s.enqueued + [s.p.elem.value])
  {
    hide BlockOk, BlocksOk, FillOk, SizesOk, ConsumerOk, HistoryOk, Queue, CountersOk;
  }

  /** The store that publishes an element in the tail block. */
  lemma StoresTailIndex<T>(s: State<T>, a: bool)
    requires Inv(s) && s.p.pc.PStoreTail?
    ensures Inv(ProducerStep(s, a))
    ensures Queue(ProducerStep(s, a).m) == Queue(s.m) + [s.p.elem.value]
  {
    hide BlockOk, BlocksOk, FillOk, SizesOk, Queue, ConsumerOk, Live, HistoryOk, CountersOk, ProducerStep, ProducerGuarantee;
    StoreTailIs(s, a);
    var m, i, d := s.m, s.m.tailIndex, s.c.pc.CStoreFront?;
    TailOk(s);
    assert At(m, i).size > 0;
    var b := TailStored(At(m, i), s.p.nextTail, s.p.elem.value);
    StoresTail(At(m, i), d && i == 0, s.p.elem.value);
    BlocksUpdate(m, i, b, d, i, s.p.elem, d, i, None);
    RingUpdate(m, i, b);
    var m' := WithBlock(m, m.ring[i], b);
    FillAfterStore(m, b);
    QueueGrows(m, b, s.p.elem.value);
    TailStoreUnseen(m, b, s.p.elem.value);
    ConsumerStable(m, m', s.c);
    Publishes(s, m');
  }

  lemma TailStoreUnseen<T>(m: Memory<T>, b: Block<T>, v: T)
    requires RingOk(m) && b == TailStored(At(m, m.tailIndex), b.tail, v) && CountersOk(At(m, m.tailIndex))
    ensures ProducerGuarantee(m, WithBlock(m, m.ring[m.tailIndex], b))
  {
    RingUpdate(m, m.tailIndex, b);
    var m' := WithBlock(m, m.ring[m.tailIndex], b);
    assert At(m, 0).history <= At(m', 0).history by {
      assert At(m', 0) == if 0 == m.tailIndex then b else At(m, 0);
    }
    if m.tailIndex > 0 {
      assert At(m', 0) == At(m, 0);
      assert At(m', 1) == if 1 == m.tailIndex then b else At(m, 1);
    }
  }

  lemma QueueGrows<T>(m: Memory<T>, b: Block<T>, v: T)
    requires RingOk(m) && CountersOk(At(m, m.tailIndex)) && b == TailStored(At(m, m.tailIndex), b.tail, v)
    ensures Queue(WithBlock(m, m.ring[m.tailIndex], b)) == Queue(m) + [v]
  {
    hide CountersOk, Contents, Queue;
    var i := m.tailIndex;
    RingUpdate(m, i, b);
    var m' := WithBlock(m, m.ring[i], b);
    QueueByTail(m);
    QueueByTail(m');
    forall j | 0 <= j < i ensures m.blocks[m.ring[j]] == m'.blocks[m.ring[j]] {
      assert At(m', j) == At(m, j);
    }
    ContentsFrame(m.blocks, m'.blocks, m.ring[..i]);
    assert Live(b) == Live(At(m, i)) + [v] by { LiveGrows(At(m, i), b.tail, v); }
  }

  lemma LiveGrows<T>(b: Block<T>, tail: nat, v: T)
    requires CountersOk(b)
    ensures Live(TailStored(b, tail, v)) == Live(b) + [v]
  {
    assert (b.history + [v])[b.removed..b.added + 1] == b.history[b.removed..b.added] + [v];
  }

  lemma FillAfterStore<T>(m: Memory<T>, b: Block<T>)
    requires RingOk(m) && FillOk(m, false)
    requires b.next == At(m, m.tailIndex).next
    requires b.added == At(m, m.tailIndex).added + 1 && b.removed == At(m, m.tailIndex).removed && CountersOk(At(m, m.tailIndex))
    ensures RingOk(WithBlock(m, m.ring[m.tailIndex], b)) && FillOk(WithBlock(m, m.ring[m.tailIndex], b), false)
  {
    RingUpdate(m, m.tailIndex, b);
  }

  // ---------------------------------------------------------------------------------------------
  // Steps on the block behind the tail block

  lemma NextOk<T>(s: State<T>)
    requires Inv(s) && s.m.tailIndex + 1 < |s.m.ring|
    ensures BlockOk(At(s.m, s.m.tailIndex + 1), false, if s.p.pc.PNextStoreTail? then s.p.elem else None)
    ensures CountersOk(At(s.m, s.m.tailIndex + 1))
  {
    hide Slot, CountersOk, Queue, ProducerOk, ConsumerOk, FillOk, HistoryOk;
  }

  lemma LoadNextFrontIs<T>(s: State<T>, a: bool)
    requires Inv(s) && s.p.pc.PLoadNextFront?
    ensures s.m.tailIndex + 1 < |s.m.ring|
    ensures var b := At(s.m, s.m.tailIndex + 1);
            ProducerStep(s, a) == s.(m := WithBlock(s.m, s.m.ring[s.m.tailIndex + 1], FrontSeen(b)), p := s.p.(pc := PLoadNextTail, nextFront := b.front))
  {
    hide BlockOk, BlocksOk, FillOk, SizesOk, ConsumerOk, HistoryOk, Queue, CountersOk;
  }

  lemma LoadsNextFront<T>(s: State<T>, a: bool)
    requires Inv(s) && s.p.pc.PLoadNextFront?
    ensures Inv(ProducerStep(s, a))
  {
    hide BlockOk, BlocksOk, FillOk, SizesOk, ConsumerOk, HistoryOk, Queue, CountersOk, ProducerStep;
    LoadNextFrontIs(s, a);
    var m, i, d := s.m, s.m.tailIndex + 1, s.c.pc.CStoreFront?;
    NextOk(s);
    var b := FrontSeen(At(m, i));
    Glimpses(At(m, i), false, None);
    QuietUpdate(m, i, b, d, s.m.tailIndex, None, d, s.m.tailIndex, None, false);
    var m' := WithBlock(m, m.ring[i], b);
    ConsumerStable(m, m', s.c);
    Assembles(s, m', s.p.(pc := PLoadNextTail, nextFront := At(m, i).front));
  }

  lemma ConstructInNextIs<T>(s: State<T>, a: bool)
    requires Inv(s) && s.p.pc.PNextConstruct?
    ensures s.m.tailIndex + 1 < |s.m.ring|
    ensures var b := At(s.m, s.m.tailIndex + 1);
            && b.tail < |b.slots|
            && ProducerStep(s, a) == s.(m := WithBlock(s.m, s.m.ring[s.m.tailIndex + 1], b.(slots := b.slots[b.tail := s.p.elem])),
                                        p := s.p.(pc := PNextStoreTail))
  {
    hide BlockOk, BlocksOk, FillOk, SizesOk, ConsumerOk, HistoryOk, Queue;
    NextOk(s);
    Constructs(At(s.m, s.m.tailIndex + 1), false, s.p.elem);
  }

  lemma ConstructsInNext<T>(s: State<T>, a: bool)
    requires Inv(s) && s.p.pc.PNextConstruct?
    ensures Inv(ProducerStep(s, a))
  {
    hide BlockOk, BlocksOk, FillOk, SizesOk, ConsumerOk, HistoryOk, Queue, ProducerStep;
    ConstructInNextIs(s, a);
    var m, i, d, p' := s.m, s.m.tailIndex + 1, s.c.pc.CStoreFront?, s.p.(pc := PNextStoreTail);
    NextOk(s);
    Constructs(At(m, i), false, s.p.elem);
    var b := At(m, i).(slots := At(m, i).slots[At(m, i).tail := s.p.elem]);
    QuietUpdate(m, i, b, d, s.m.tailIndex, None, d, i, s.p.elem, false);
    var m' := WithBlock(m, m.ring[i], b);
    ConsumerStable(m, m', s.c);
    Assembles(s, m', p');
  }

  lemma StoreNextTailIs<T>(s: State<T>, a: bool)
    requires Inv(s) && s.p.pc.PNextStoreTail?
    ensures s.m.tailIndex + 1 < |s.m.ring| && s.p.elem.Some? && At(s.m, s.m.tailIndex + 1).size > 0
    ensures var n := At(s.m, s.m.tailIndex + 1);
            ProducerStep(s, a) == s.(m := WithBlock(s.m, s.m.ring[s.m.tailIndex + 1], TailStored(n, (s.p.nextTail + 1) % n.size, s.p.elem.value)),
                                     p := s.p.(pc := PStoreTailBlock))
  {
    hide BlockOk, BlocksOk, FillOk, SizesOk, ConsumerOk, HistoryOk, Queue, CountersOk;
  }

  /** The window: the next block holds the element, but it is not in the queue yet. */
  lemma StoresNextTail<T>(s: State<T>, a: bool)
    requires Inv(s) && s.p.pc.PNextStoreTail?
    ensures Inv(ProducerStep(s, a))
  {
    hide BlockOk, BlocksOk, FillOk, SizesOk, ConsumerOk, HistoryOk, Queue, CountersOk, Live, ProducerStep, ProducerGuarantee;
    StoreNextTailIs(s, a);
    var m, i, d, p' := s.m, s.m.tailIndex + 1, s.c.pc.CStoreFront?, s.p.(pc := PStoreTailBlock);
    NextOk(s);
    var n := At(m, i);
    assert n.removed == n.added by { NextEmpty(s.m); }
    assert n.size >= 2 by { AtCounters(s, i); BigEnough(n); }
    var b := TailStored(n, (s.p.nextTail + 1) % n.size, s.p.elem.value);
    StoresTail(n, false, s.p.elem.value);
    BlocksUpdate(m, i, b, d, i, s.p.elem, d, m.tailIndex, None);
    RingUpdate(m, i, b);
    var m' := WithBlock(m, m.ring[i], b);
    QueueUpdate(m, i, b);
    FillWhilePublishing(m, b);
    NextUpdateUnseen(m, b);
    ConsumerStable(m, m', s.c);
    LiveGrows(n, b.tail, s.p.elem.value);
    NothingLive(n);
    Assembles(s, m', p');
  }

  lemma NextEmpty<T>(m: Memory<T>)
    requires RingOk(m) && m.tailIndex + 1 < |m.ring| && FillOk(m, false)
    ensures At(m, m.tailIndex + 1).removed == At(m, m.tailIndex + 1).added
  {
  }

  lemma FillWhilePublishing<T>(m: Memory<T>, b: Block<T>)
    requires RingOk(m) && m.tailIndex + 1 < |m.ring| && FillOk(m, false) && b.next == At(m, m.tailIndex + 1).next
    ensures RingOk(WithBlock(m, m.ring[m.tailIndex + 1], b)) && FillOk(WithBlock(m, m.ring[m.tailIndex + 1], b), true)
  {
    RingUpdate(m, m.tailIndex + 1, b);
  }

  /** An update of the block behind the tail block by the producer. */
  lemma NextUpdateUnseen<T>(m: Memory<T>, b: Block<T>)
    requires RingOk(m) && m.tailIndex + 1 < |m.ring|
    requires b.next == At(m, m.tailIndex + 1).next && b.size == At(m, m.tailIndex + 1).size
    ensures ProducerGuarantee(m, WithBlock(m, m.ring[m.tailIndex + 1], b))
  {
    RingUpdate(m, m.tailIndex + 1, b);
    var m' := WithBlock(m, m.ring[m.tailIndex + 1], b);
    assert At(m', 0) == At(m, 0);
    if m.tailIndex > 0 {
      assert At(m', 1) == At(m, 1);
    }
  }

  lemma BigEnough<T>(b: Block<T>)
    requires CountersOk(b)
    ensures b.size >= 2
  {
  }

  lemma NothingLive<T>(b: Block<T>)
    requires CountersOk(b) && b.removed == b.added
    ensures Live(b) == []
  {
  }

  /** The memory after the tail block pointer moved on. */
  ghost function TailAdvanced<T>(m: Memory<T>): Memory<T>
    requires RingOk(m) && m.tailIndex + 1 < |m.ring|
  {
    m.(tailBlock := m.ring[m.tailIndex + 1], tailIndex := m.tailIndex + 1)
  }

  lemma TailAdvances<T>(m: Memory<T>, d: bool)
    requires RingOk(m) && SizesOk(m) && m.tailIndex + 1 < |m.ring| && FillOk(m, true)
    requires BlocksOk(m, d, m.tailIndex, None)
    requires At(m, m.tailIndex + 1).removed < At(m, m.tailIndex + 1).added
    requires m.tailIndex > 0 ==> Full(At(m, m.tailIndex))
    ensures var m' := TailAdvanced(m);
            RingOk(m') && SizesOk(m') && FillOk(m', false) && BlocksOk(m', d, m'.tailIndex, None) && ProducerGuarantee(m, m')
    ensures Queue(TailAdvanced(m)) == Queue(m) + Live(At(m, m.tailIndex + 1))
  {
    hide BlockOk, Live, Contents;
    var m' := TailAdvanced(m);
    assert RingOk(m');
    assert forall i :: 0 <= i < |m.ring| ==> At(m', i) == At(m, i);
    assert m'.ring[..m'.tailIndex] == m.ring[..m.tailIndex + 1];
    QueueByTail(m');
  }

  lemma StoreTailBlockIs<T>(s: State<T>, a: bool)
    requires Inv(s) && s.p.pc.PStoreTailBlock?
    ensures s.m.tailIndex + 1 < |s.m.ring| && s.p.elem.Some?
    ensures ProducerStep(s, a) == s.(m := TailAdvanced(s.m), p := PReturn(s.p, true), enqueued := s.enqueued + [s.p.elem.value])
  {
    hide BlockOk, BlocksOk, FillOk, SizesOk, ConsumerOk, HistoryOk, Queue, Live, CountersOk;
  }

  /** The store that publishes the element of the next block, and with it the block. */
  lemma StoresTailBlock<T>(s: State<T>, a: bool)
    requires Inv(s) && s.p.pc.PStoreTailBlock?
    ensures Inv(ProducerStep(s, a))
    ensures Queue(ProducerStep(s, a).m) == Queue(s.m) + [s.p.elem.value]
  {
    hide BlockOk, BlocksOk, FillOk, SizesOk, ConsumerOk, HistoryOk, Queue, Live, ProducerStep, ProducerGuarantee, CountersOk;
    StoreTailBlockIs(s, a);
    var m' := TailAdvanced(s.m);
    TailAdvances(s.m, s.c.pc.CStoreFront?);
    ConsumerStable(s.m, m', s.c);
    Publishes(s, m');
  }

  // ---------------------------------------------------------------------------------------------
  // Steps on a freshly allocated block

  lemma RingExtended<T>(m: Memory<T>, m': Memory<T>, d: bool, at: nat, v: Option<T>, publishing: bool)
    requires RingOk(m) && SizesOk(m) && BlocksOk(m, d, at, v) && FillOk(m, publishing)
    requires |m.blocks| <= |m'.blocks| && m.largestBlockSize <= m'.largestBlockSize
    requires m' == m.(blocks := m'.blocks, largestBlockSize := m'.largestBlockSize)
    requires forall id :: 0 <= id < |m.blocks| && id in m.ring ==> m'.blocks[id] == m.blocks[id]
    ensures RingOk(m') && SizesOk(m') && BlocksOk(m', d, at, v) && FillOk(m', publishing) && Queue(m') == Queue(m)
    ensures forall i :: 0 <= i < |m.ring| ==> At(m', i) == At(m, i)
  {
    hide BlockOk, Live, Contents;
    RingSame(m, m');
    QueueSame(m, m');
  }

  lemma RingSame<T>(m: Memory<T>, m': Memory<T>)
    requires RingOk(m) && |m.blocks| <= |m'.blocks| && m' == m.(blocks := m'.blocks, largestBlockSize := m'.largestBlockSize)
    requires forall id :: 0 <= id < |m.blocks| && id in m.ring ==> m'.blocks[id] == m.blocks[id]
    ensures RingOk(m') && forall i :: 0 <= i < |m.ring| ==> At(m', i) == At(m, i)
  {
  }

  lemma QueueSame<T>(m: Memory<T>, m': Memory<T>)
    requires RingOk(m) && RingOk(m') && m'.ring == m.ring && m'.tailIndex == m.tailIndex
    requires forall i :: 0 <= i < |m.ring| ==> At(m', i) == At(m, i)
    ensures Queue(m') == Queue(m)
  {
    hide Live;
    forall j | 0 <= j < m.tailIndex + 1 ensures m.blocks[m.ring[j]] == m'.blocks[m.ring[j]] {
      assert At(m', j) == At(m, j);
    }
    ContentsFrame(m.blocks, m'.blocks, m.ring[..m.tailIndex + 1]);
  }

  lemma AllocateIs<T>(s: State<T>, a: bool)
    requires Inv(s) && s.p.pc.PAlloc?
    ensures ProducerStep(s, a) ==
            if !a then s.(p := PReturn(s.p.(outOfMemory := true), false))
            else s.(m := s.m.(blocks := s.m.blocks + [NewBlock(NewBlockSize(s.m))], largestBlockSize := NewBlockSize(s.m)),
                    p := s.p.(pc := PNewConstruct, nb := |s.m.blocks|))
  {
    hide BlockOk, BlocksOk, FillOk, SizesOk, ConsumerOk, HistoryOk, Queue, CountersOk, NewBlock;
  }

  lemma AllocatedOk<T>(s: State<T>, m': Memory<T>, p': Producer<T>)
    requires Inv(s) && s.p.pc.PAlloc? && p' == s.p.(pc := PNewConstruct, nb := |s.m.blocks|)
    requires m' == s.m.(blocks := s.m.blocks + [NewBlock(NewBlockSize(s.m))], largestBlockSize := NewBlockSize(s.m)) && RingOk(m')
    ensures ProducerOk(m', p') && ProducerGuarantee(s.m, m')
  {
    hide BlockOk, BlocksOk, FillOk, ConsumerOk, HistoryOk, Queue;
    FreshBlock<T>(NewBlockSize(s.m));
    assert |s.m.blocks| !in s.m.ring;
  }

  lemma Allocates<T>(s: State<T>, a: bool)
    requires Inv(s) && s.p.pc.PAlloc?
    ensures Inv(ProducerStep(s, a))
  {
    hide BlockOk, BlocksOk, FillOk, ConsumerOk, HistoryOk, Queue, ProducerStep, ProducerGuarantee, NewBlock;
    AllocateIs(s, a);
    if !a {
      MovesLocally(s, PReturn(s.p.(outOfMemory := true), false));
    } else {
      var m, d, p' := s.m, s.c.pc.CStoreFront?, s.p.(pc := PNewConstruct, nb := |s.m.blocks|);
      var m' := m.(blocks := m.blocks + [NewBlock(NewBlockSize(m))], largestBlockSize := NewBlockSize(m));
      RingExtended(m, m', d, m.tailIndex, None, false);
      AllocatedOk(s, m', p');
      hide ProducerOk;
      ConsumerStable(m, m', s.c);
      Assembles(s, m', p');
    }
  }

  /** A step that rewrites only the block that is not in the ring yet. */
  lemma PreparesBlock<T>(s: State<T>, b: Block<T>, p: Producer<T>)
    requires Inv(s) && s.p.nb < |s.m.blocks| && s.p.nb !in s.m.ring && b.size == s.m.blocks[s.p.nb].size
    requires Pending(s.p) == None && Pending(p) == None && !s.p.pc.PNextStoreTail? && !p.pc.PNextStoreTail?
    requires !s.p.pc.PStoreTailBlock? && !p.pc.PStoreTailBlock? && !p.pc.PIdle?
    requires RingOk(WithBlock(s.m, s.p.nb, b)) ==> ProducerOk(WithBlock(s.m, s.p.nb, b), p)
    ensures Inv(s.(m := WithBlock(s.m, s.p.nb, b), p := p))
  {
    hide BlockOk, BlocksOk, FillOk, SizesOk, ConsumerOk, HistoryOk, Queue, ProducerOk;
    var m, d := s.m, s.c.pc.CStoreFront?;
    var m' := WithBlock(m, s.p.nb, b);
    RingExtended(m, m', d, m.tailIndex, None, false);
    ConsumerStable(m, m', s.c);
    Assembles(s, m', p);
  }

  lemma ConstructsInNew<T>(s: State<T>, a: bool)
    requires Inv(s) && s.p.pc.PNewConstruct?
    ensures Inv(ProducerStep(s, a))
  {
    hide BlocksOk, FillOk, SizesOk, ConsumerOk, HistoryOk, Queue, SlotsOk;
    var b := s.m.blocks[s.p.nb];
    Constructs(b, false, s.p.elem);
    PreparesBlock(s, b.(slots := b.slots[0 := s.p.elem]), s.p.(pc := PNewInit));
  }

  lemma InitializesNew<T>(s: State<T>, a: bool)
    requires Inv(s) && s.p.pc.PNewInit?
    ensures Inv(ProducerStep(s, a))
  {
    hide BlocksOk, FillOk, SizesOk, ConsumerOk, HistoryOk, Queue, SlotsOk;
    var b := s.m.blocks[s.p.nb];
    var b' := TailStored(b, (b.tail + 1) % b.size, s.p.elem.value);
    StoresTail(b, false, s.p.elem.value);
    Glimpses(b', false, None);
    PreparesBlock(s, TailSeen(b'), s.p.(pc := PNewLink));
  }

  lemma LinksNew<T>(s: State<T>, a: bool)
    requires Inv(s) && s.p.pc.PNewLink?
    ensures Inv(ProducerStep(s, a))
  {
    hide BlockOk, BlocksOk, FillOk, SizesOk, ConsumerOk, HistoryOk, Queue;
    var b := s.m.blocks[s.p.nb];
    var next := s.m.blocks[s.p.tb].next;
    Relinks(b, false, None, next);
    PreparesBlock(s, b.(next := next), s.p.(pc := PLink));
  }

  /** The memory after the tail block points to block id, which joins the ring behind it. */
  ghost function Inserted<T>(m: Memory<T>, id: nat): Memory<T>
    requires RingOk(m)
  {
    Linked(WithBlock(m, m.tailBlock, m.blocks[m.tailBlock].(next := id)), id)
  }

  ghost predicate CanInsert<T>(m: Memory<T>, id: nat) {
    && RingOk(m) && id < |m.blocks| && id !in m.ring && m.blocks[id].next == m.blocks[m.tailBlock].next
  }

  lemma InsertedRing<T>(m: Memory<T>, id: nat, m': Memory<T>)
    requires CanInsert(m, id) && m' == Inserted(m, id)
    ensures |m'.ring| == |m.ring| + 1
    ensures forall i :: 0 <= i < |m'.ring| ==>
                          m'.ring[i] == if i <= m.tailIndex then m.ring[i] else if i == m.tailIndex + 1 then id else m.ring[i - 1]
  {
  }

  lemma InsertedNext<T>(m: Memory<T>, id: nat, m': Memory<T>)
    requires CanInsert(m, id) && m' == Inserted(m, id)
    ensures RingOk(m')
  {
    var t := m.tailIndex;
    InsertedRing(m, id, m');
    forall i | 0 <= i < |m'.ring|
      ensures m'.ring[i] < |m'.blocks|
      ensures m'.blocks[m'.ring[i]].next == m'.ring[if i + 1 == |m'.ring| then 0 else i + 1]
    {
      if i < t {
        assert m'.blocks[m.ring[i]] == m.blocks[m.ring[i]];
      } else if i == t + 1 {
      } else if i > t + 1 {
        assert m'.blocks[m.ring[i - 1]] == m.blocks[m.ring[i - 1]];
      }
    }
    InsertedDistinct(m, id, m');
  }

  lemma InsertedDistinct<T>(m: Memory<T>, id: nat, m': Memory<T>)
    requires CanInsert(m, id) && m' == Inserted(m, id)
    ensures forall i, j :: 0 <= i < j < |m'.ring| ==> m'.ring[i] != m'.ring[j]
  {
    InsertedRing(m, id, m');
    hide Linked;
    forall i, j | 0 <= i < j < |m'.ring| ensures m'.ring[i] != m'.ring[j] {
      assert m'.ring[i] == id ==> i == m.tailIndex + 1;
      assert m'.ring[j] == id ==> j == m.tailIndex + 1;
    }
  }

  lemma InsertedBlocks<T>(m: Memory<T>, id: nat, m': Memory<T>)
    requires CanInsert(m, id) && m' == Inserted(m, id)
    ensures RingOk(m') && |m'.ring| == |m.ring| + 1 && m'.tailIndex == m.tailIndex
    ensures At(m', m.tailIndex + 1) == m.blocks[id] && At(m', m.tailIndex) == At(m, m.tailIndex).(next := id)
    ensures forall i :: 0 <= i < m.tailIndex ==> At(m', i) == At(m, i)
    ensures forall i :: m.tailIndex + 1 < i < |m'.ring| ==> At(m', i) == At(m, i - 1)
  {
    InsertedRing(m, id, m');
    InsertedNext(m, id, m');
  }

  lemma Inserts<T>(m: Memory<T>, id: nat, m': Memory<T>, d: bool)
    requires CanInsert(m, id) && m' == Inserted(m, id)
    requires SizesOk(m) && BlocksOk(m, d, m.tailIndex, None) && FillOk(m, false)
    requires m.minSize <= m.blocks[id].size && BlockOk(m.blocks[id], false, None)
    ensures RingOk(m') && SizesOk(m') && BlocksOk(m', d, m.tailIndex, None) && FillOk(m', true)
  {
    hide BlockOk, Live;
    InsertedBlocks(m, id, m');
    Relinks(At(m, m.tailIndex), d && m.tailIndex == 0, None, id);
    MoreRoom(|m.ring|, m.minSize - 1);
    forall i | 0 <= i < |m'.ring|
      ensures m.minSize <= At(m', i).size
      ensures BlockOk(At(m', i), d && i == 0, None)
    {
      if i > m.tailIndex + 1 {
        assert At(m', i) == At(m, i - 1);
      }
    }
    forall i | m.tailIndex + 1 < i < |m'.ring|
      ensures At(m', i).removed == At(m', i).added
    {
      assert At(m', i) == At(m, i - 1);
    }
  }

  lemma MoreRoom(n: nat, each: nat)
    ensures n >= 1 ==> n * each == (n - 1) * each + each
  {
  }

  lemma InsertKeepsQueue<T>(m: Memory<T>, id: nat, m': Memory<T>)
    requires CanInsert(m, id) && m' == Inserted(m, id)
    ensures Queue(m') == Queue(m) && ProducerGuarantee(m, m')
  {
    InsertedBlocks(m, id, m');
    assert m'.ring[..m.tailIndex + 1] == m.ring[..m.tailIndex + 1];
    forall i | 0 <= i < m.tailIndex + 1
      ensures Live(m.blocks[m.ring[i]]) == Live(m'.blocks[m.ring[i]])
    {
      assert At(m', i) == if i < m.tailIndex then At(m, i) else At(m, i).(next := id);
    }
    ContentsFrame(m.blocks, m'.blocks, m.ring[..m.tailIndex + 1]);
    assert At(m', 0) == if 0 < m.tailIndex then At(m, 0) else At(m, 0).(next := id);
    if m.tailIndex > 0 {
      assert At(m', 1) == if 1 < m.tailIndex then At(m, 1) else At(m, 1).(next := id);
    }
  }

  lemma LinkTailIs<T>(s: State<T>, a: bool)
    requires Inv(s) && s.p.pc.PLink?
    ensures ProducerStep(s, a) == s.(m := Inserted(s.m, s.p.nb), p := s.p.(pc := PStoreTailBlock))
  {
    hide BlockOk, BlocksOk, FillOk, SizesOk, ConsumerOk, HistoryOk, Queue, CountersOk;
  }

  lemma LinksTail<T>(s: State<T>, a: bool)
    requires Inv(s) && s.p.pc.PLink?
    ensures Inv(ProducerStep(s, a))
  {
    hide BlockOk, BlocksOk, FillOk, SizesOk, ConsumerOk, HistoryOk, Queue, ProducerStep;
    LinkTailIs(s, a);
    var m, id, d := s.m, s.p.nb, s.c.pc.CStoreFront?;
    var m', p' := Inserted(m, id), s.p.(pc := PStoreTailBlock);
    assert s.m.minSize <= m.blocks[id].size;
    Inserts(m, id, m', d);
    InsertKeepsQueue(m, id, m');
    InsertedBlocks(m, id, m');
    ConsumerStable(m, m', s.c);
    assert m'.ring[m.tailIndex + 1] == id && At(m', m.tailIndex + 1) == m.blocks[id];
    assert At(m', m.tailIndex) == At(m, m.tailIndex).(next := id);
    Assembles(s, m', p');
  }

  // ---------------------------------------------------------------------------------------------

  lemma ProducerKeeps<T>(s: State<T>, a: bool)
    requires Inv(s) && !s.p.pc.PIdle?
    ensures Inv(ProducerStep(s, a))
  {
    hide RingOk, BlockOk, BlocksOk, FillOk, SizesOk, ConsumerOk, HistoryOk, Queue;
    match s.p.pc
    case PIdle =>
    case PLoadLocalFront => LoadsLocally(s, a);
    case PLoadTail => LoadsLocally(s, a);
    case PLoadFront => LoadsFront(s, a);
    case PConstruct => ConstructsElement(s, a);
    case PStoreTail => StoresTailIndex(s, a);
    case PLoadNext => LoadsLocally(s, a);
    case PLoadFrontBlock => LoadsFrontBlock(s, a);
    case PReloadNext => LoadsLocally(s, a);
    case PLoadNextFront => LoadsNextFront(s, a);
    case PLoadNextTail => LoadsNextTail(s, a);
    case PNextConstruct => ConstructsInNext(s, a);
    case PNextStoreTail => StoresNextTail(s, a);
    case PStoreTailBlock => StoresTailBlock(s, a);
    case PAlloc => Allocates(s, a);
    case PNewConstruct => ConstructsInNew(s, a);
    case PNewInit => InitializesNew(s, a);
    case PNewLink => LinksNew(s, a);
    case PLink => LinksTail(s, a);
    case PCrashed =>
  }
}
