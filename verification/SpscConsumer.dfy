/** Every step of the consumer keeps the invariant. */
module SpscConsumer {
  import opened Wrappers
  import opened SpscQueue
  import opened SpscInvariant
  import opened SpscFrames

  // ---------------------------------------------------------------------------------------------
  // Steps that change no shared memory

  lemma MovesLocally<T>(s: State<T>, c: Consumer<T>)
    requires Inv(s) && ConsumerOk(s.m, c) && c.pc.CStoreFront? == s.c.pc.CStoreFront?
    requires c.pc.CIdle? && c.returned ==> c.op.Peek? && Queue(s.m) != [] && c.result == Some(Queue(s.m)[0])
    ensures Inv(s.(c := c))
  {
    hide RingOk, BlocksOk, FillOk, SizesOk, ConsumerOk, ProducerOk, Queue, Pending, PendingAt;
  }

  lemma FrontOk<T>(s: State<T>)
    requires Inv(s)
    ensures BlockOk(At(s.m, 0), s.c.pc.CStoreFront?, if PendingAt(s.m, s.p) == 0 then Pending(s.p) else None)
    ensures CountersOk(At(s.m, 0))
  {
    hide Slot, CountersOk, Queue, ProducerOk, ConsumerOk, FillOk, HistoryOk, Pending, PendingAt;
  }

  lemma Begins<T>(s: State<T>, op: ConsumerOp)
    requires Inv(s) && s.c.pc.CIdle?
    ensures Inv(BeginConsumeStep(s, op))
  {
    hide BlockOk, BlocksOk, FillOk, SizesOk, ProducerOk, HistoryOk;
    FrontOk(s);
    MovesLocally(s, BeginConsumeStep(s, op).c);
  }

  lemma LoadsLocally<T>(s: State<T>)
    requires Inv(s)
    requires s.c.pc.CLoadLocalTail? || s.c.pc.CLoadFront? || s.c.pc.CReloadFrontBlock? || s.c.pc.CReloadFront? || s.c.pc.CLoadNextFront?
    ensures Inv(ConsumerStep(s))
  {
    hide BlockOk, BlocksOk, FillOk, SizesOk, ProducerOk, HistoryOk, Queue, SlotsOk;
    FrontOk(s);
    EmptyTest(At(s.m, 0));
    MovesLocally(s, ConsumerStep(s).c);
  }

  lemma LoadsTailBlock<T>(s: State<T>)
    requires Inv(s) && s.c.pc.CLoadTailBlock?
    ensures Inv(ConsumerStep(s))
    ensures ConsumerStep(s).c.pc.CIdle? ==> !ConsumerStep(s).c.returned && ConsumerStep(s).c.sawEmpty
  {
    hide BlockOk, BlocksOk, FillOk, SizesOk, ProducerOk, HistoryOk, Queue, SlotsOk;
    FrontOk(s);
    MovesLocally(s, ConsumerStep(s).c);
  }

  lemma LoadsNext<T>(s: State<T>)
    requires Inv(s) && s.c.pc.CLoadNext?
    ensures Inv(ConsumerStep(s))
  {
    hide BlockOk, BlocksOk, FillOk, SizesOk, ProducerOk, HistoryOk, Queue, SlotsOk;
    assert At(s.m, 0).next == s.m.ring[1];
    MovesLocally(s, ConsumerStep(s).c);
  }

  /** The element at the front of the front block is the front of the queue. */
  lemma FrontOfQueue<T>(s: State<T>)
    requires Inv(s) && At(s.m, 0).removed < At(s.m, 0).added
    ensures At(s.m, 0).removed < |At(s.m, 0).history|
    ensures Queue(s.m) != [] && Queue(s.m)[0] == At(s.m, 0).history[At(s.m, 0).removed]
  {
    hide BlockOk, BlocksOk, FillOk, SizesOk, ProducerOk, ConsumerOk, HistoryOk, Contents, SlotsOk, Queue;
    FrontOk(s);
    QueueByFront(s.m);
  }

  lemma ReadsFront<T>(s: State<T>)
    requires Inv(s) && s.c.pc.CRead?
    ensures Inv(ConsumerStep(s))
  {
    hide BlockOk, BlocksOk, FillOk, SizesOk, ProducerOk, HistoryOk, Queue, SlotsOk;
    FrontOk(s);
    Reads(At(s.m, 0), if PendingAt(s.m, s.p) == 0 then Pending(s.p) else None);
    FrontOfQueue(s);
    MovesLocally(s, ConsumerStep(s).c);
  }

  // ---------------------------------------------------------------------------------------------
  // Steps on the front block

  /** Assembles the invariant after a step that changes memory to m and locals to c and takes nothing out. */
  lemma Assembles<T>(s: State<T>, m: Memory<T>, c: Consumer<T>)
    requires Inv(s) && RingOk(m) && SizesOk(m) && FillOk(m, s.p.pc.PStoreTailBlock?)
    requires BlocksOk(m, c.pc.CStoreFront?, PendingAt(m, s.p), Pending(s.p))
    requires ProducerOk(m, s.p) && ConsumerOk(m, c) && Queue(m) == Queue(s.m) && !c.pc.CIdle?
    ensures Inv(s.(m := m, c := c))
  {
    hide RingOk, BlocksOk, FillOk, SizesOk, ConsumerOk, ProducerOk, Queue, Pending, PendingAt;
  }

  /** Refreshing the shadow copy of the front block's tail. */
  lemma SeesTail<T>(s: State<T>) returns (m: Memory<T>)
    requires Inv(s) && !s.c.pc.CStoreFront?
    ensures m == WithBlock(s.m, s.m.frontBlock, TailSeen(s.m.blocks[s.m.frontBlock]))
    ensures RingOk(m) && SizesOk(m) && FillOk(m, s.p.pc.PStoreTailBlock?) && BlocksOk(m, false, PendingAt(m, s.p), Pending(s.p))
    ensures ProducerOk(m, s.p) && Queue(m) == Queue(s.m)
  {
    hide BlockOk, BlocksOk, FillOk, SizesOk, ConsumerOk, HistoryOk, Queue, CountersOk, ProducerOk;
    var at, v := PendingAt(s.m, s.p), Pending(s.p);
    var b := TailSeen(At(s.m, 0));
    FrontOk(s);
    Glimpses(At(s.m, 0), false, if at == 0 then v else None);
    QuietUpdate(s.m, 0, b, false, at, v, false, at, v, s.p.pc.PStoreTailBlock?);
    m := WithBlock(s.m, s.m.ring[0], b);
    ProducerStable(s.m, m, s.p);
  }

  lemma LoadsTail<T>(s: State<T>)
    requires Inv(s) && s.c.pc.CLoadTail?
    ensures Inv(ConsumerStep(s))
  {
    hide BlockOk, BlocksOk, FillOk, SizesOk, HistoryOk, Queue, ProducerOk;
    var m := SeesTail(s);
    FrontOk(s);
    EmptyTest(At(s.m, 0));
    var c := ConsumerStep(s).c;
    assert ConsumerOk(m, c) by {
      if c.pc.CLoadTailBlock? && s.m.tailIndex == 0 {
        EmptyQueue(s);
      }
    }
    Assembles(s, m, c);
  }

  lemma EmptyQueue<T>(s: State<T>)
    requires Inv(s) && s.m.tailIndex == 0 && At(s.m, 0).removed == At(s.m, 0).added
    ensures Queue(s.m) == []
  {
    hide BlockOk, BlocksOk, FillOk, SizesOk, ConsumerOk, HistoryOk, ProducerOk;
    ContentsOne(s.m.blocks, s.m.ring[0]);
    assert s.m.ring[..1] == [s.m.ring[0]];
  }

  lemma ReloadsTail<T>(s: State<T>)
    requires Inv(s) && s.c.pc.CReloadTail?
    ensures Inv(ConsumerStep(s))
  {
    hide BlockOk, BlocksOk, FillOk, SizesOk, HistoryOk, Queue, ProducerOk;
    var m := SeesTail(s);
    FrontOk(s);
    Assembles(s, m, ConsumerStep(s).c);
  }

  lemma DestroyIs<T>(s: State<T>)
    requires Inv(s) && s.c.pc.CDestroy?
    ensures var b := At(s.m, 0);
            && b.front < |b.slots|
            && ConsumerStep(s) == s.(m := WithBlock(s.m, s.m.ring[0], b.(slots := b.slots[b.front := None])), c := s.c.(pc := CStoreFront))
  {
    hide BlockOk, BlocksOk, FillOk, SizesOk, HistoryOk, Queue, ProducerOk;
    FrontOk(s);
    Reads(At(s.m, 0), if PendingAt(s.m, s.p) == 0 then Pending(s.p) else None);
  }

  lemma DestroysFront<T>(s: State<T>)
    requires Inv(s) && s.c.pc.CDestroy?
    ensures Inv(ConsumerStep(s))
  {
    hide BlockOk, BlocksOk, FillOk, SizesOk, HistoryOk, Queue, ProducerOk, ConsumerStep, ConsumerGuarantee;
    DestroyIs(s);
    var at, v := PendingAt(s.m, s.p), Pending(s.p);
    FrontOk(s);
    Reads(At(s.m, 0), if at == 0 then v else None);
    Destroys(At(s.m, 0), if at == 0 then v else None);
    var b := At(s.m, 0).(slots := At(s.m, 0).slots[At(s.m, 0).front := None]);
    QuietUpdate(s.m, 0, b, false, at, v, true, at, v, s.p.pc.PStoreTailBlock?);
    var m := WithBlock(s.m, s.m.ring[0], b);
    FrontUpdateUnseen(s.m, b);
    ProducerStable(s.m, m, s.p);
    Assembles(s, m, s.c.(pc := CStoreFront));
  }

  /** Assembles the invariant after the store that takes the front element out. */
  lemma TakesOut<T>(s: State<T>, m: Memory<T>, c: Consumer<T>, v: T)
    requires Inv(s) && RingOk(m) && SizesOk(m) && FillOk(m, s.p.pc.PStoreTailBlock?)
    requires BlocksOk(m, false, PendingAt(m, s.p), Pending(s.p)) && ProducerOk(m, s.p) && ConsumerOk(m, c)
    requires Queue(s.m) == [v] + Queue(m) && c.pc.CIdle? && !c.op.Peek? && (c.op.TryDequeue? ==> c.result == Some(v))
    ensures Inv(s.(m := m, c := c, dequeued := s.dequeued + [v]))
  {
    hide RingOk, BlocksOk, FillOk, SizesOk, ConsumerOk, ProducerOk, Queue, Pending, PendingAt;
  }

  lemma StoreFrontIs<T>(s: State<T>)
    requires Inv(s) && s.c.pc.CStoreFront?
    ensures var f := At(s.m, 0);
            && f.size > 0 && f.removed < |f.history| && Taken(s.c, f) == [f.history[f.removed]]
            && ConsumerStep(s) == s.(m := WithBlock(s.m, s.m.ring[0], FrontStored(f, (f.front + 1) % f.size)),
                                     c := s.c.(pc := CIdle, returned := true), dequeued := s.dequeued + [f.history[f.removed]])
  {
    hide BlockOk, BlocksOk, FillOk, SizesOk, HistoryOk, Queue, ProducerOk, Live;
    FrontOk(s);
  }

  /** The memory after the front element is taken out. */
  lemma TakesFront<T>(s: State<T>) returns (m: Memory<T>)
    requires Inv(s) && s.c.pc.CStoreFront?
    ensures var f := At(s.m, 0);
            && f.size > 0 && f.removed < |f.history| && m == WithBlock(s.m, s.m.ring[0], FrontStored(f, (f.front + 1) % f.size))
            && RingOk(m) && SizesOk(m) && FillOk(m, s.p.pc.PStoreTailBlock?) && BlocksOk(m, false, PendingAt(m, s.p), Pending(s.p))
            && ProducerOk(m, s.p) && Queue(s.m) == [f.history[f.removed]] + Queue(m)
            && m.blocks[m.frontBlock].size > 0 && |m.blocks| == |s.m.blocks|
  {
    hide BlockOk, BlocksOk, FillOk, SizesOk, HistoryOk, Queue, ProducerOk, Live, ConsumerGuarantee;
    var at, v := PendingAt(s.m, s.p), Pending(s.p);
    FrontOk(s);
    var f := At(s.m, 0);
    var b := FrontStored(f, (f.front + 1) % f.size);
    StoresFront(f, if at == 0 then v else None);
    BlocksUpdate(s.m, 0, b, true, at, v, false, at, v);
    RingUpdate(s.m, 0, b);
    m := WithBlock(s.m, s.m.ring[0], b);
    FrontUpdateUnseen(s.m, b);
    ProducerStable(s.m, m, s.p);
    FillAfterTake(s.m, b, s.p.pc.PStoreTailBlock?);
    QueueShrinks(s.m, b);
  }

  lemma StoresFrontIndex<T>(s: State<T>)
    requires Inv(s) && s.c.pc.CStoreFront?
    ensures Inv(ConsumerStep(s))
    ensures Queue(s.m) == Taken(s.c, At(s.m, 0)) + Queue(ConsumerStep(s).m)
  {
    hide BlockOk, BlocksOk, FillOk, SizesOk, HistoryOk, Queue, ProducerOk, ConsumerStep, Taken, CountersOk;
    StoreFrontIs(s);
    var m := TakesFront(s);
    var f := At(s.m, 0);
    TakesOut(s, m, s.c.(pc := CIdle, returned := true), f.history[f.removed]);
  }

  lemma FillAfterTake<T>(m: Memory<T>, b: Block<T>, publishing: bool)
    requires RingOk(m) && FillOk(m, publishing) && b.next == At(m, 0).next
    ensures RingOk(WithBlock(m, m.ring[0], b)) && FillOk(WithBlock(m, m.ring[0], b), publishing)
  {
    RingUpdate(m, 0, b);
  }

  lemma QueueShrinks<T>(m: Memory<T>, b: Block<T>)
    requires RingOk(m) && CountersOk(At(m, 0)) && At(m, 0).removed < At(m, 0).added && b == FrontStored(At(m, 0), b.front)
    ensures Queue(m) == [At(m, 0).history[At(m, 0).removed]] + Queue(WithBlock(m, m.ring[0], b))
  {
    hide Contents, Queue, Live;
    RingUpdate(m, 0, b);
    var m' := WithBlock(m, m.ring[0], b);
    QueueByFront(m);
    QueueByFront(m');
    forall j | 1 <= j < m.tailIndex + 1 ensures m.blocks[m.ring[j]] == m'.blocks[m.ring[j]] {
      assert At(m', j) == At(m, j);
    }
    ContentsFrame(m.blocks, m'.blocks, m.ring[1..m.tailIndex + 1]);
    LiveShrinks(At(m, 0), b.front);
  }

  lemma LiveShrinks<T>(b: Block<T>, front: nat)
    requires CountersOk(b) && b.removed < b.added
    ensures Live(b) == [b.history[b.removed]] + Live(FrontStored(b, front))
  {
    assert b.history[b.removed..b.added] == [b.history[b.removed]] + b.history[b.removed + 1..b.added];
  }

  // ---------------------------------------------------------------------------------------------
  // Steps into the next block

  /** The block behind an empty front block that is not the tail block holds an element. */
  lemma NextNotEmpty<T>(s: State<T>)
    requires Inv(s) && s.m.tailIndex > 0
    ensures At(s.m, 1).removed < At(s.m, 1).added && CountersOk(At(s.m, 1))
    ensures BlockOk(At(s.m, 1), false, if PendingAt(s.m, s.p) == 1 then Pending(s.p) else None)
  {
    hide Slot, SizesOk, Queue, ProducerOk, ConsumerOk, HistoryOk, Pending, PendingAt, SlotsOk;
    assert BlockOk(At(s.m, 1), false, if PendingAt(s.m, s.p) == 1 then Pending(s.p) else None);
    if s.m.tailIndex > 1 {
      assert Full(At(s.m, 1));
    }
  }

  lemma LoadNextTailIs<T>(s: State<T>)
    requires Inv(s) && s.c.pc.CLoadNextTail? && !s.c.op.Peek?
    ensures |s.m.ring| > 1
    ensures ConsumerStep(s) == s.(m := WithBlock(s.m, s.m.ring[1], TailSeen(At(s.m, 1))), c := s.c.(pc := CStoreFrontBlock))
  {
    hide BlockOk, BlocksOk, FillOk, SizesOk, HistoryOk, Queue, ProducerOk;
    NextNotEmpty(s);
    EmptyTest(At(s.m, 1));
  }

  lemma LoadsNextTail<T>(s: State<T>)
    requires Inv(s) && s.c.pc.CLoadNextTail? && !s.c.op.Peek?
    ensures Inv(ConsumerStep(s))
  {
    hide BlockOk, BlocksOk, FillOk, SizesOk, HistoryOk, Queue, ProducerOk, ConsumerStep;
    LoadNextTailIs(s);
    var at, v := PendingAt(s.m, s.p), Pending(s.p);
    NextNotEmpty(s);
    EmptyTest(At(s.m, 1));
    var b := TailSeen(At(s.m, 1));
    Glimpses(At(s.m, 1), false, if at == 1 then v else None);
    QuietUpdate(s.m, 1, b, false, at, v, false, at, v, s.p.pc.PStoreTailBlock?);
    var m := WithBlock(s.m, s.m.ring[1], b);
    ProducerStable(s.m, m, s.p);
    Assembles(s, m, s.c.(pc := CStoreFrontBlock));
  }

  lemma PeeksNext<T>(s: State<T>)
    requires Inv(s) && s.c.pc.CLoadNextTail? && s.c.op.Peek?
    ensures Inv(ConsumerStep(s))
  {
    hide BlockOk, BlocksOk, FillOk, SizesOk, HistoryOk, Queue, ProducerOk, SlotsOk;
    NextNotEmpty(s);
    EmptyTest(At(s.m, 1));
    Reads(At(s.m, 1), if PendingAt(s.m, s.p) == 1 then Pending(s.p) else None);
    SecondBlockFirst(s.m);
    MovesLocally(s, ConsumerStep(s).c);
  }

  /** Behind an empty front block, the queue begins in the second block. */
  lemma SecondBlockFirst<T>(m: Memory<T>)
    requires RingOk(m) && m.tailIndex > 0 && At(m, 0).removed == At(m, 0).added
    requires CountersOk(At(m, 1)) && At(m, 1).removed < At(m, 1).added
    ensures Queue(m) != [] && Queue(m)[0] == At(m, 1).history[At(m, 1).removed]
  {
    hide Queue;
    QueueByFront(m);
    var ids := m.ring[1..m.tailIndex + 1];
    assert ids[0] == m.ring[1];
    assert Live(At(m, 0)) == [];
  }

  lemma RotatedRing<T>(m: Memory<T>, m': Memory<T>)
    requires RingOk(m) && m.tailIndex > 0 && m' == Rotated(m.(frontBlock := m.ring[1]))
    ensures RingOk(m') && |m'.ring| == |m.ring| && m'.tailIndex == m.tailIndex - 1
    ensures forall i :: 0 <= i < |m.ring| - 1 ==> At(m', i) == At(m, i + 1)
    ensures At(m', |m.ring| - 1) == At(m, 0)
  {
    assert forall i :: 0 <= i < |m.ring| ==> m'.ring[i] == if i + 1 == |m.ring| then m.ring[0] else m.ring[i + 1];
    assert RingOk(m');
  }

  lemma RotatedSizes<T>(m: Memory<T>, m': Memory<T>)
    requires RingOk(m) && SizesOk(m) && m.tailIndex > 0 && m' == Rotated(m.(frontBlock := m.ring[1])) && RingOk(m')
    ensures SizesOk(m')
  {
    RotatedRing(m, m');
    forall i | 0 <= i < |m'.ring| ensures m.minSize <= At(m', i).size {
      assert At(m', i) == if i < |m.ring| - 1 then At(m, i + 1) else At(m, 0);
    }
  }

  lemma RotatedFill<T>(m: Memory<T>, m': Memory<T>, publishing: bool)
    requires RingOk(m) && FillOk(m, publishing) && m.tailIndex > 0 && At(m, 0).removed == At(m, 0).added
    requires m' == Rotated(m.(frontBlock := m.ring[1])) && RingOk(m')
    ensures FillOk(m', publishing)
  {
    RotatedRing(m, m');
    forall i | 0 <= i < |m'.ring|
      ensures 0 < i < m'.tailIndex ==> Full(At(m', i))
      ensures m'.tailIndex < i && !(publishing && i == m'.tailIndex + 1) ==> At(m', i).removed == At(m', i).added
    {
      assert At(m', i) == if i < |m.ring| - 1 then At(m, i + 1) else At(m, 0);
    }
  }

  lemma RotatedBlocks<T>(m: Memory<T>, m': Memory<T>, at: nat, v: Option<T>)
    requires RingOk(m) && BlocksOk(m, false, at, v) && m.tailIndex > 0 && 1 <= at < |m.ring|
    requires m' == Rotated(m.(frontBlock := m.ring[1])) && RingOk(m')
    ensures BlocksOk(m', false, at - 1, v)
  {
    hide BlockOk;
    RotatedRing(m, m');
    forall i | 0 <= i < |m'.ring| ensures BlockOk(At(m', i), false, if i == at - 1 then v else None) {
      assert At(m', i) == if i < |m.ring| - 1 then At(m, i + 1) else At(m, 0);
    }
  }

  lemma RotateKeepsQueue<T>(m: Memory<T>, m': Memory<T>)
    requires RingOk(m) && RingOk(m') && m.tailIndex > 0 && At(m, 0).removed == At(m, 0).added
    requires m' == Rotated(m.(frontBlock := m.ring[1]))
    ensures Queue(m') == Queue(m)
  {
    QueueByFront(m);
    assert m'.ring[..m'.tailIndex + 1] == m.ring[1..m.tailIndex + 1];
  }

  lemma StoresFrontBlock<T>(s: State<T>)
    requires Inv(s) && s.c.pc.CStoreFrontBlock?
    ensures Inv(ConsumerStep(s))
  {
    hide RingOk, BlockOk, BlocksOk, FillOk, SizesOk, HistoryOk, Queue, ProducerOk, CountersOk, ConsumerGuarantee, Rotated, At, ConsumerStep, ConsumerOk;
    var m, c := RotatedState(s);
    PendingInRing(s.m, s.p);
    RotatedRing(s.m, m);
    RotatedSizes(s.m, m);
    RotatedFill(s.m, m, s.p.pc.PStoreTailBlock?);
    RotatedBlocks(s.m, m, PendingAt(s.m, s.p), Pending(s.p));
    RotateKeepsQueue(s.m, m);
    RotateUnseen(s.m, m);
    ProducerStable(s.m, m, s.p);
    RotatedConsumer(s, m, c);
    Assembles(s, m, c);
  }

  lemma RotatedState<T>(s: State<T>) returns (m: Memory<T>, c: Consumer<T>)
    requires Inv(s) && s.c.pc.CStoreFrontBlock?
    ensures s.m.tailIndex > 0 && At(s.m, 0).removed == At(s.m, 0).added
    ensures m == Rotated(s.m.(frontBlock := s.m.ring[1])) && c == s.c.(pc := CRead, fb := s.c.nb)
    ensures ConsumerStep(s) == s.(m := m, c := c)
  {
    hide BlockOk, BlocksOk, FillOk, SizesOk, HistoryOk, Queue, ProducerOk;
    m := Rotated(s.m.(frontBlock := s.m.ring[1]));
    c := s.c.(pc := CRead, fb := s.c.nb);
  }

  lemma RotatedConsumer<T>(s: State<T>, m: Memory<T>, c: Consumer<T>)
    requires Inv(s) && s.c.pc.CStoreFrontBlock? && RingOk(m)
    requires m == Rotated(s.m.(frontBlock := s.m.ring[1])) && c == s.c.(pc := CRead, fb := s.c.nb)
    ensures ConsumerOk(m, c)
  {
    hide BlockOk, BlocksOk, FillOk, SizesOk, HistoryOk, Queue, ProducerOk;
    RotatedRing(s.m, m);
    assert At(m, 0) == At(s.m, 1);
    NextNotEmpty(s);
  }

  lemma PendingInRing<T>(m: Memory<T>, p: Producer<T>)
    requires RingOk(m) && ProducerOk(m, p)
    ensures PendingAt(m, p) < |m.ring|
  {
  }

  lemma RotateUnseen<T>(m: Memory<T>, m': Memory<T>)
    requires RingOk(m) && RingOk(m') && m.tailIndex > 0 && m' == Rotated(m.(frontBlock := m.ring[1]))
    ensures ConsumerGuarantee(m, m')
  {
    assert forall i :: 0 <= i < |m.ring| ==> m'.ring[i] == if i + 1 == |m.ring| then m.ring[0] else m.ring[i + 1];
    forall id | id !in m.ring ensures id !in m'.ring {}
  }

  // ---------------------------------------------------------------------------------------------

  lemma ConsumerKeeps<T>(s: State<T>)
    requires Inv(s) && !s.c.pc.CIdle?
    ensures Inv(ConsumerStep(s))
  {
    hide RingOk, BlockOk, BlocksOk, FillOk, SizesOk, ProducerOk, HistoryOk, Queue;
    match s.c.pc
    case CIdle =>
    case CLoadLocalTail => LoadsLocally(s);
    case CLoadFront => LoadsLocally(s);
    case CLoadTail => LoadsTail(s);
    case CLoadTailBlock => LoadsTailBlock(s);
    case CReloadFrontBlock => LoadsLocally(s);
    case CReloadTail => ReloadsTail(s);
    case CReloadFront => LoadsLocally(s);
    case CLoadNext => LoadsNext(s);
    case CLoadNextFront => LoadsLocally(s);
    case CLoadNextTail => if s.c.op.Peek? { PeeksNext(s); } else { LoadsNextTail(s); }
    case CStoreFrontBlock => StoresFrontBlock(s);
    case CRead => ReadsFront(s);
    case CDestroy => DestroysFront(s);
    case CStoreFront => StoresFrontIndex(s);
    case CCrashed =>
  }
}
