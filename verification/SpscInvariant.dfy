/** The inductive invariant of the queue: what holds between any two steps of any interleaving. */
module SpscInvariant {
  import opened Wrappers
  import opened Modular
  import opened SpscQueue

  // ---------------------------------------------------------------------------------------------
  // One block

  function Slot<T>(b: Block<T>, k: nat): Option<T> {
    if b.size > 0 && |b.slots| == b.size then b.slots[Wrap(k, b.size)] else None
  }

  /** Each shadow copy lags behind the index it shadows, and the block never overtakes itself. */
  ghost predicate CountersOk<T>(b: Block<T>) {
    && b.size >= 2 && |b.slots| == b.size && |b.history| == b.added
    && b.removedSeen <= b.removed <= b.addedSeen <= b.added < b.removedSeen + b.size
    && b.front == Wrap(b.removed, b.size) && b.tail == Wrap(b.added, b.size)
    && b.localFront == Wrap(b.removedSeen, b.size) && b.localTail == Wrap(b.addedSeen, b.size)
  }

  /**
    Slots hold exactly the elements between `removed` and `added`; the consumer may already have
    destroyed the first, and the producer may already have constructed the one after the last.
   */
  ghost predicate SlotsOk<T>(b: Block<T>, destroyed: bool, pending: Option<T>)
    requires CountersOk(b)
  {
    && (destroyed ==> b.removed < b.added)
    && (forall k: nat :: b.removed <= k < b.added ==>
                           Slot(b, k) == if destroyed && k == b.removed then None else Some(b.history[k]))
    && (forall k: nat :: b.added <= k < b.removed + b.size ==> Slot(b, k) == if k == b.added then pending else None)
  }

  ghost predicate BlockOk<T>(b: Block<T>, destroyed: bool, pending: Option<T>) {
    CountersOk(b) && SlotsOk(b, destroyed, pending)
  }

  predicate Full<T>(b: Block<T>) {
    b.added + 1 == b.removed + b.size
  }

  lemma SlotAfterWrite<T>(b: Block<T>, at: nat, k: nat, v: Option<T>)
    requires b.size > 0 && |b.slots| == b.size && at < k + b.size && k < at + b.size
    ensures Slot(b.(slots := b.slots[Wrap(at, b.size) := v]), k) == if k == at then v else Slot(b, k)
  {
    if at <= k {
      SameIndex(at, k, b.size);
    } else {
      SameIndex(k, at, b.size);
    }
  }

  lemma Constructs<T>(b: Block<T>, destroyed: bool, v: Option<T>)
    requires BlockOk(b, destroyed, None)
    ensures b.slots[b.tail].None?
    ensures BlockOk(b.(slots := b.slots[b.tail := v]), destroyed, v)
  {
    assert Slot(b, b.added) == None;
    var b' := b.(slots := b.slots[b.tail := v]);
    forall k: nat | b.removed <= k < b.removed + b.size
      ensures Slot(b', k) == if k == b.added then v else Slot(b, k)
    {
      SlotAfterWrite(b, b.added, k, v);
    }
  }

  lemma Reads<T>(b: Block<T>, pending: Option<T>)
    requires BlockOk(b, false, pending) && b.removed < b.added
    ensures b.front < |b.slots| && b.slots[b.front] == Some(b.history[b.removed])
  {
    assert Slot(b, b.removed) == Some(b.history[b.removed]);
  }

  lemma Destroys<T>(b: Block<T>, pending: Option<T>)
    requires BlockOk(b, false, pending) && b.removed < b.added
    ensures BlockOk(b.(slots := b.slots[b.front := None]), true, pending)
  {
    var b' := b.(slots := b.slots[b.front := None]);
    forall k: nat | b.removed <= k < b.removed + b.size
      ensures Slot(b', k) == if k == b.removed then None else Slot(b, k)
    {
      SlotAfterWrite(b, b.removed, k, None);
    }
  }

  lemma StoresTail<T>(b: Block<T>, destroyed: bool, v: T)
    requires BlockOk(b, destroyed, Some(v)) && b.added + 1 < b.removedSeen + b.size
    ensures BlockOk(TailStored(b, (b.tail + 1) % b.size, v), destroyed, None)
  {
    NextIndex(b.added, b.size);
    var b' := TailStored(b, (b.tail + 1) % b.size, v);
    forall k: nat ensures Slot(b', k) == Slot(b, k) {}
    assert Slot(b', b.added) == Some(v);
  }

  lemma StoresFront<T>(b: Block<T>, pending: Option<T>)
    requires BlockOk(b, true, pending) && b.removed < b.addedSeen
    ensures BlockOk(FrontStored(b, (b.front + 1) % b.size), false, pending)
  {
    NextIndex(b.removed, b.size);
    var b' := FrontStored(b, (b.front + 1) % b.size);
    forall k: nat ensures Slot(b', k) == Slot(b, k) {}
    assert Slot(b, b.removed + b.size) == Slot(b, b.removed);
  }

  lemma Glimpses<T>(b: Block<T>, destroyed: bool, pending: Option<T>)
    requires BlockOk(b, destroyed, pending)
    ensures BlockOk(TailSeen(b), destroyed, pending)
    ensures BlockOk(FrontSeen(b), destroyed, pending)
  {
    forall k: nat ensures Slot(TailSeen(b), k) == Slot(b, k) && Slot(FrontSeen(b), k) == Slot(b, k) {}
  }

  lemma Relinks<T>(b: Block<T>, destroyed: bool, pending: Option<T>, next: int)
    requires BlockOk(b, destroyed, pending)
    ensures BlockOk(b.(next := next), destroyed, pending)
  {
    forall k: nat ensures Slot(b.(next := next), k) == Slot(b, k) {}
  }

  lemma FreshBlock<T>(size: nat)
    requires size >= 2
    ensures BlockOk(NewBlock<T>(size), false, None)
  {
  }

  /** Comparing an index with a shadow copy decides whether the counters behind them are equal. */
  lemma EmptyTest<T>(b: Block<T>)
    requires CountersOk(b)
    ensures b.front == b.localTail <==> b.removed == b.addedSeen
    ensures b.front == b.tail <==> b.removed == b.added
  {
    SameIndex(b.removed, b.addedSeen, b.size);
    SameIndex(b.removed, b.added, b.size);
  }

  lemma FullTest<T>(b: Block<T>)
    requires CountersOk(b)
    ensures (b.tail + 1) % b.size == b.localFront <==> b.added + 1 == b.removedSeen + b.size
    ensures (b.tail + 1) % b.size == b.front <==> Full(b)
  {
    NextIndex(b.added, b.size);
    SameIndex(b.added + 1, b.removedSeen + b.size, b.size);
    SameIndex(b.added + 1, b.removed + b.size, b.size);
  }

  // ---------------------------------------------------------------------------------------------
  // The ring

  ghost predicate RingOk<T>(m: Memory<T>) {
    && m.tailIndex < |m.ring|
    && (forall i :: 0 <= i < |m.ring| ==> m.ring[i] < |m.blocks|)
    && (forall i, j :: 0 <= i < j < |m.ring| ==> m.ring[i] != m.ring[j])
    && m.frontBlock == m.ring[0] && m.tailBlock == m.ring[m.tailIndex]
    && (forall i :: 0 <= i < |m.ring| ==> m.blocks[m.ring[i]].next == m.ring[if i + 1 == |m.ring| then 0 else i + 1])
  }

  /** The i-th block of the ring, counted from the front block. */
  ghost function At<T>(m: Memory<T>, i: nat): Block<T>
    requires RingOk(m) && i < |m.ring|
  {
    m.blocks[m.ring[i]]
  }

  /** The sizes promised by the constructor: enough room even without the front block. */
  ghost predicate SizesOk<T>(m: Memory<T>)
    requires RingOk(m)
  {
    && 2 <= m.minSize <= m.largestBlockSize
    && (forall i :: 0 <= i < |m.ring| ==> m.minSize <= At(m, i).size)
    && (|m.ring| == 1 ==> m.capacity < m.minSize)
    && (|m.ring| > 1 ==> m.capacity <= (|m.ring| - 1) * (m.minSize - 1))
  }

  /** Every block is in order; `pending` is the element constructed but not yet counted in block `at`. */
  ghost predicate BlocksOk<T>(m: Memory<T>, destroyed: bool, at: nat, pending: Option<T>)
    requires RingOk(m)
  {
    forall i :: 0 <= i < |m.ring| ==> BlockOk(At(m, i), destroyed && i == 0, if i == at then pending else None)
  }

  /**
    Blocks strictly between the front and the tail block are full, the tail block is not empty unless
    it is the front block, and the blocks after it are empty but for one that already holds the element
    about to be published.
   */
  ghost predicate FillOk<T>(m: Memory<T>, publishing: bool)
    requires RingOk(m)
  {
    && (forall i :: 0 < i < m.tailIndex ==> Full(At(m, i)))
    && (m.tailIndex > 0 ==> At(m, m.tailIndex).removed < At(m, m.tailIndex).added)
    && (forall i :: m.tailIndex < i < |m.ring| && !(publishing && i == m.tailIndex + 1) ==>
                      At(m, i).removed == At(m, i).added)
  }

  // ---------------------------------------------------------------------------------------------
  // The producer

  ghost predicate NewBlockOk<T>(m: Memory<T>, p: Producer<T>)
    requires RingOk(m)
  {
    && p.tb < |m.blocks| && p.nb < |m.blocks| && p.nb !in m.ring && p.elem.Some?
    && var b := m.blocks[p.nb];
    && m.minSize <= b.size && b.removed == 0 && b.removedSeen == 0
    && (match p.pc
        case PNewConstruct => b.added == 0 && BlockOk(b, false, None)
        case PNewInit => b.added == 0 && BlockOk(b, false, p.elem)
        case _ => b.added == 1 && BlockOk(b, false, None) && b.history == [p.elem.value])
    && (p.pc.PLink? ==> b.next == m.blocks[p.tb].next)
  }

  /** The producer found its block full; so it stays, unless the consumer is in it. */
  predicate FoundFull(pc: ProducerPc) {
    !pc.PIdle? && !pc.PLoadLocalFront? && !pc.PLoadTail? && !pc.PLoadFront? && !pc.PConstruct? && !pc.PStoreTail?
  }

  ghost predicate ProducerOk<T>(m: Memory<T>, p: Producer<T>)
    requires RingOk(m)
  {
    var tb := m.blocks[m.tailBlock];
    && p.tb < |m.blocks| && p.nb < |m.blocks| && m.blocks[p.nb].size > 0 && m.blocks[p.tb].size > 0
    && !p.pc.PCrashed?
    && (p.pc.PIdle? && p.calls > 0 && !p.returned ==> if p.canAlloc then p.outOfMemory else p.sawFull)
    && (!p.pc.PIdle? ==> p.tb == m.tailBlock && p.elem.Some? && p.calls > 0)
    && (FoundFull(p.pc) && m.tailIndex > 0 ==> Full(tb))
    && (match p.pc
        case PLoadTail => p.blockFront == tb.localFront
        case PLoadFront => p.blockTail == tb.tail && p.nextTail == (tb.tail + 1) % tb.size
        case PConstruct => p.blockTail == tb.tail && p.nextTail == (tb.tail + 1) % tb.size && tb.added + 1 < tb.removedSeen + tb.size
        case PStoreTail => p.blockTail == tb.tail && p.nextTail == (tb.tail + 1) % tb.size && tb.added + 1 < tb.removedSeen + tb.size
        case PLoadNext => |m.ring| == 1 ==> p.sawFull
        case PLoadFrontBlock => (|m.ring| == 1 ==> p.sawFull) && p.nb == tb.next
        case PAlloc => p.canAlloc
        case _ => true)
    && (p.pc.PReloadNext? ==> m.tailIndex + 1 < |m.ring|)
    && (p.pc.PLoadNextFront? || p.pc.PLoadNextTail? || p.pc.PNextConstruct? || p.pc.PNextStoreTail? || p.pc.PStoreTailBlock? ==>
          && m.tailIndex + 1 < |m.ring| && p.nb == m.ring[m.tailIndex + 1]
          && (p.pc.PLoadNextTail? ==> p.nextFront == m.blocks[p.nb].front)
          && (p.pc.PNextConstruct? || p.pc.PNextStoreTail? ==> p.nextTail == m.blocks[p.nb].tail)
          && (!p.pc.PLoadNextFront? ==> m.blocks[p.nb].removedSeen == m.blocks[p.nb].removed)
          && (p.pc.PStoreTailBlock? ==> m.blocks[p.nb].added == m.blocks[p.nb].removed + 1 && Live(m.blocks[p.nb]) == [p.elem.value]))
    && (p.pc.PNewConstruct? || p.pc.PNewInit? || p.pc.PNewLink? || p.pc.PLink? ==> NewBlockOk(m, p))
  }

  // ---------------------------------------------------------------------------------------------
  // The consumer

  ghost predicate ConsumerOk<T>(m: Memory<T>, c: Consumer<T>)
    requires RingOk(m)
  {
    var fb := m.blocks[m.frontBlock];
    && c.fb < |m.blocks| && c.nb < |m.blocks| && m.blocks[c.fb].size > 0
    && !c.pc.CCrashed?
    && (c.pc.CIdle? && c.calls > 0 && !c.returned ==> c.sawEmpty)
    && (!c.pc.CIdle? ==> c.fb == m.frontBlock && c.calls > 0)
    && (match c.pc
        case CLoadFront => c.blockTail == fb.localTail
        case CLoadTail => c.blockFront == fb.front && fb.removed == fb.addedSeen
        case CLoadTailBlock => m.tailIndex > 0 || c.sawEmpty
        case CReloadFrontBlock => m.tailIndex > 0
        case CReloadTail => m.tailIndex > 0
        case CReloadFront => m.tailIndex > 0 && c.blockTail == fb.localTail && fb.addedSeen == fb.added
        case _ => true)
    && (c.pc.CLoadNext? || c.pc.CLoadNextFront? || c.pc.CLoadNextTail? || c.pc.CStoreFrontBlock? ==>
          && m.tailIndex > 0 && fb.removed == fb.added
          && (!c.pc.CLoadNext? ==> c.nb == m.ring[1])
          && (c.pc.CLoadNextTail? || c.pc.CStoreFrontBlock? ==> c.blockFront == m.blocks[c.nb].front)
          && (c.pc.CStoreFrontBlock? ==> m.blocks[c.nb].removed < m.blocks[c.nb].addedSeen && !c.op.Peek?))
    && (c.pc.CRead? || c.pc.CDestroy? || c.pc.CStoreFront? ==> c.blockFront == fb.front && fb.removed < fb.addedSeen)
    && (c.pc.CDestroy? || c.pc.CStoreFront? ==>
          && !c.op.Peek? && fb.removed < |fb.history|
          && (c.op.TryDequeue? ==> c.result == Some(fb.history[fb.removed])))
  }

  // ---------------------------------------------------------------------------------------------
  // The whole

  /** Enqueued is dequeued plus queued, and every finished call returned what it should. */
  ghost predicate HistoryOk<T>(s: State<T>) {
    && s.enqueued == s.dequeued + Queue(s.m)
    && (s.p.pc.PIdle? && s.p.calls > 0 && s.p.returned ==>
          s.enqueued != [] && s.p.elem == Some(s.enqueued[|s.enqueued| - 1]))
    && (s.c.pc.CIdle? && s.c.calls > 0 && s.c.returned && s.c.op.TryDequeue? ==>
          s.dequeued != [] && s.c.result == Some(s.dequeued[|s.dequeued| - 1]))
    && (s.c.pc.CIdle? && s.c.calls > 0 && s.c.returned && s.c.op.Peek? ==>
          Queue(s.m) != [] && s.c.result == Some(Queue(s.m)[0]))
  }

  function PendingAt<T>(m: Memory<T>, p: Producer<T>): nat {
    if p.pc.PNextStoreTail? then m.tailIndex + 1 else m.tailIndex
  }

  function Pending<T>(p: Producer<T>): Option<T> {
    if p.pc.PStoreTail? || p.pc.PNextStoreTail? then p.elem else None
  }

  ghost predicate Inv<T>(s: State<T>) {
    && RingOk(s.m) && SizesOk(s.m)
    && BlocksOk(s.m, s.c.pc.CStoreFront?, PendingAt(s.m, s.p), Pending(s.p))
    && FillOk(s.m, s.p.pc.PStoreTailBlock?)
    && ProducerOk(s.m, s.p) && ConsumerOk(s.m, s.c) && HistoryOk(s)
  }

  // ---------------------------------------------------------------------------------------------
  // Contents of a stretch of blocks

  lemma {:induction false} ContentsAppend<T>(blocks: seq<Block<T>>, xs: seq<nat>, ys: seq<nat>)
    ensures Contents(blocks, xs + ys) == Contents(blocks, xs) + Contents(blocks, ys)
  {
    if xs == [] {
      assert xs + ys == ys;
    } else {
      assert (xs + ys)[1..] == xs[1..] + ys;
      ContentsAppend(blocks, xs[1..], ys);
    }
  }

  lemma {:induction false} ContentsFrame<T>(blocks: seq<Block<T>>, blocks': seq<Block<T>>, ids: seq<nat>)
    requires forall i :: 0 <= i < |ids| ==> ids[i] < |blocks| && ids[i] < |blocks'| && Live(blocks[ids[i]]) == Live(blocks'[ids[i]])
    ensures Contents(blocks, ids) == Contents(blocks', ids)
  {
    if ids != [] {
      ContentsFrame(blocks, blocks', ids[1..]);
    }
  }

  lemma ContentsOne<T>(blocks: seq<Block<T>>, id: nat)
    requires id < |blocks|
    ensures Contents(blocks, [id]) == Live(blocks[id])
  {
    assert [id][1..] == [];
    assert Live(blocks[id]) + [] == Live(blocks[id]);
  }

  /** The queue seen from the tail: everything before the tail block, then the tail block. */
  lemma QueueByTail<T>(m: Memory<T>)
    requires RingOk(m)
    ensures Queue(m) == Contents(m.blocks, m.ring[..m.tailIndex]) + Live(At(m, m.tailIndex))
  {
    assert m.ring[..m.tailIndex + 1] == m.ring[..m.tailIndex] + [m.tailBlock];
    ContentsAppend(m.blocks, m.ring[..m.tailIndex], [m.tailBlock]);
    ContentsOne(m.blocks, m.tailBlock);
  }

  /** The queue seen from the front: the front block, then everything after it. */
  lemma QueueByFront<T>(m: Memory<T>)
    requires RingOk(m)
    ensures Queue(m) == Live(At(m, 0)) + Contents(m.blocks, m.ring[1..m.tailIndex + 1])
  {
    assert m.ring[..m.tailIndex + 1][1..] == m.ring[1..m.tailIndex + 1];
  }
}
