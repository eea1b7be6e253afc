/** What one block update leaves alone, and what each thread may rely on while the other one moves. */
module SpscFrames {
  import opened Wrappers
  import opened SpscQueue
  import opened SpscInvariant

  lemma RingUpdate<T>(m: Memory<T>, i: nat, b: Block<T>)
    requires RingOk(m) && i < |m.ring| && b.next == At(m, i).next
    ensures RingOk(WithBlock(m, m.ring[i], b))
    ensures forall j :: 0 <= j < |m.ring| ==> At(WithBlock(m, m.ring[i], b), j) == if j == i then b else At(m, j)
    ensures SizesOk(m) && b.size == At(m, i).size ==> SizesOk(WithBlock(m, m.ring[i], b))
  {
    var m' := WithBlock(m, m.ring[i], b);
    assert forall j :: 0 <= j < |m.ring| && j != i ==> m.ring[j] != m.ring[i];
    assert RingOk(m');
    assert forall j :: 0 <= j < |m.ring| ==> At(m', j) == if j == i then b else At(m, j);
  }

  lemma BlocksUpdate<T>(m: Memory<T>, i: nat, b: Block<T>, d: bool, at: nat, v: Option<T>, d': bool, at': nat, v': Option<T>)
    requires RingOk(m) && i < |m.ring| && b.next == At(m, i).next
    requires BlocksOk(m, d, at, v)
    requires d == d' || i == 0
    requires ((v == None || at == i) && (v' == None || at' == i)) || (v == v' && at == at')
    requires BlockOk(b, d' && i == 0, if i == at' then v' else None)
    ensures RingOk(WithBlock(m, m.ring[i], b)) && BlocksOk(WithBlock(m, m.ring[i], b), d', at', v')
  {
    hide BlockOk;
    RingUpdate(m, i, b);
  }

  lemma FillUpdate<T>(m: Memory<T>, i: nat, b: Block<T>, publishing: bool)
    requires RingOk(m) && i < |m.ring| && b.next == At(m, i).next && FillOk(m, publishing)
    requires b.removed == At(m, i).removed && b.added == At(m, i).added && b.size == At(m, i).size
    ensures RingOk(WithBlock(m, m.ring[i], b)) && FillOk(WithBlock(m, m.ring[i], b), publishing)
  {
    RingUpdate(m, i, b);
  }

  lemma QueueUpdate<T>(m: Memory<T>, i: nat, b: Block<T>)
    requires RingOk(m) && i < |m.ring| && b.next == At(m, i).next
    requires i <= m.tailIndex ==> Live(b) == Live(At(m, i))
    ensures Queue(WithBlock(m, m.ring[i], b)) == Queue(m)
  {
    hide Live;
    RingUpdate(m, i, b);
    var m' := WithBlock(m, m.ring[i], b);
    forall j | 0 <= j < m.tailIndex + 1
      ensures Live(m.blocks[m.ring[j]]) == Live(m'.blocks[m.ring[j]])
    {
      assert At(m', j) == if j == i then b else At(m, j);
    }
    ContentsFrame(m.blocks, m'.blocks, m.ring[..m.tailIndex + 1]);
  }

  /** Everything at once, for an update that changes neither counts nor contents. */
  lemma QuietUpdate<T>(m: Memory<T>, i: nat, b: Block<T>, d: bool, at: nat, v: Option<T>, d': bool, at': nat, v': Option<T>, publishing: bool)
    requires RingOk(m) && i < |m.ring| && SizesOk(m) && BlocksOk(m, d, at, v) && FillOk(m, publishing)
    requires d == d' || i == 0
    requires ((v == None || at == i) && (v' == None || at' == i)) || (v == v' && at == at')
    requires BlockOk(b, d' && i == 0, if i == at' then v' else None)
    requires b.next == At(m, i).next && b.size == At(m, i).size
    requires b.removed == At(m, i).removed && b.added == At(m, i).added && b.history == At(m, i).history
    ensures var m' := WithBlock(m, m.ring[i], b);
            RingOk(m') && SizesOk(m') && BlocksOk(m', d', at', v') && FillOk(m', publishing) && Queue(m') == Queue(m)
    ensures forall j :: 0 <= j < |m.ring| ==> At(WithBlock(m, m.ring[i], b), j) == if j == i then b else At(m, j)
  {
    hide BlockOk, BlocksOk, FillOk, SizesOk, Queue;
    RingUpdate(m, i, b);
    BlocksUpdate(m, i, b, d, at, v, d', at', v');
    FillUpdate(m, i, b, publishing);
    assert Live(b) == Live(At(m, i));
    QueueUpdate(m, i, b);
  }

  // ---------------------------------------------------------------------------------------------
  // Rely and guarantee

  /** What the producer guarantees to the consumer. */
  ghost predicate ProducerGuarantee<T>(m: Memory<T>, m': Memory<T>) {
    && RingOk(m) && RingOk(m') && m'.frontBlock == m.frontBlock && m.tailIndex <= m'.tailIndex
    && |m.blocks| <= |m'.blocks| && (forall id :: 0 <= id < |m.blocks| ==> m'.blocks[id].size == m.blocks[id].size)
    && var b, b' := m.blocks[m.frontBlock], m'.blocks[m.frontBlock];
    && b'.front == b.front && b'.removed == b.removed && b'.addedSeen == b.addedSeen && b'.localTail == b.localTail
    && b.history <= b'.history
    && (m.tailIndex > 0 ==>
          && b'.added == b.added && m'.ring[1] == m.ring[1]
          && var n, n' := m.blocks[m.ring[1]], m'.blocks[m.ring[1]];
          n'.front == n.front && n'.removed == n.removed && n'.addedSeen == n.addedSeen)
  }

  lemma ConsumerStable<T>(m: Memory<T>, m': Memory<T>, c: Consumer<T>)
    requires ProducerGuarantee(m, m') && ConsumerOk(m, c)
    ensures ConsumerOk(m', c)
  {
  }

  /** What the consumer guarantees to the producer. */
  ghost predicate ConsumerGuarantee<T>(m: Memory<T>, m': Memory<T>) {
    && RingOk(m) && RingOk(m') && m'.tailBlock == m.tailBlock && m'.tailIndex <= m.tailIndex && |m'.ring| == |m.ring|
    && m'.minSize == m.minSize
    && |m.blocks| == |m'.blocks| && (forall id :: 0 <= id < |m.blocks| ==> m'.blocks[id].size == m.blocks[id].size)
    && (forall id :: 0 <= id < |m.blocks| && id !in m.ring ==> id !in m'.ring && m'.blocks[id] == m.blocks[id])
    && (m.tailIndex + 1 < |m.ring| ==>
          && m'.ring[m'.tailIndex + 1] == m.ring[m.tailIndex + 1]
          && m'.blocks[m.ring[m.tailIndex + 1]] == m.blocks[m.ring[m.tailIndex + 1]])
    && var b, b' := m.blocks[m.tailBlock], m'.blocks[m.tailBlock];
    && b'.tail == b.tail && b'.added == b.added && b'.localFront == b.localFront && b'.removedSeen == b.removedSeen
    && b'.next == b.next
    && (m'.tailIndex > 0 ==> b'.removed == b.removed)
  }

  /** An update of the front block by the consumer. */
  lemma FrontUpdateUnseen<T>(m: Memory<T>, b: Block<T>)
    requires RingOk(m)
    requires var f := At(m, 0);
             b.next == f.next && b.size == f.size && b.tail == f.tail && b.added == f.added && b.localFront == f.localFront && b.removedSeen == f.removedSeen
    ensures ConsumerGuarantee(m, WithBlock(m, m.ring[0], b))
  {
    RingUpdate(m, 0, b);
    var m' := WithBlock(m, m.ring[0], b);
    assert At(m', m.tailIndex) == if m.tailIndex == 0 then b else At(m, m.tailIndex);
    if m.tailIndex + 1 < |m.ring| {
      assert At(m', m.tailIndex + 1) == At(m, m.tailIndex + 1);
    }
  }

  lemma ProducerStable<T>(m: Memory<T>, m': Memory<T>, p: Producer<T>)
    requires ConsumerGuarantee(m, m') && ProducerOk(m, p)
    ensures ProducerOk(m', p)
  {
    hide BlockOk, Live;
    if p.pc.PNewConstruct? || p.pc.PNewInit? || p.pc.PNewLink? || p.pc.PLink? {
      assert NewBlockOk(m', p);
    }
  }
}
