/**
  The single-producer/single-consumer queue of 3rdparty/readerwriterqueue/readerwriterqueue.h as a
  transition system. Each program counter stands before one shared load or store (or one access to slot
  memory); loads of a variable that no other thread writes are steps of their own as well. A state
  carries, next to the fields of the original, auxiliary counters and histories that no branch reads.
 */
module SpscQueue {
  import opened Wrappers

  /** A circular buffer. `next` is a block number, -1 for a null pointer; a slot is None while it holds raw memory. */
  datatype Block<T> = Block(
    size: nat,
    front: nat,
    localTail: nat,
    tail: nat,
    localFront: nat,
    next: int,
    slots: seq<Option<T>>,
    // Auxiliary: how many elements were ever removed and added, the counts behind the two shadow
    // copies, and every element ever added.
    removed: nat,
    addedSeen: nat,
    added: nat,
    removedSeen: nat,
    history: seq<T>)

  datatype ProducerPc =
    | PIdle
    | PLoadLocalFront
    | PLoadTail
    | PLoadFront
    | PConstruct
    | PStoreTail
    | PLoadNext
    | PLoadFrontBlock
    | PReloadNext
    | PLoadNextFront
    | PLoadNextTail
    | PNextConstruct
    | PNextStoreTail
    | PStoreTailBlock
    | PAlloc
    | PNewConstruct
    | PNewInit
    | PNewLink
    | PLink
    | PCrashed

  datatype Producer<T> = Producer(
    pc: ProducerPc,
    canAlloc: bool,
    elem: Option<T>,
    tb: nat,
    blockFront: nat,
    blockTail: nat,
    nextTail: nat,
    nb: nat,
    nextFront: nat,
    returned: bool,
    outOfMemory: bool,
    // Auxiliary: the number of calls begun, and whether this call saw an instant with `capacity` elements queued.
    calls: nat,
    sawFull: bool)

  datatype ConsumerOp = TryDequeue | Pop | Peek

  datatype ConsumerPc =
    | CIdle
    | CLoadLocalTail
    | CLoadFront
    | CLoadTail
    | CLoadTailBlock
    | CReloadFrontBlock
    | CReloadTail
    | CReloadFront
    | CLoadNext
    | CLoadNextFront
    | CLoadNextTail
    | CStoreFrontBlock
    | CRead
    | CDestroy
    | CStoreFront
    | CCrashed

  datatype Consumer<T> = Consumer(
    pc: ConsumerPc,
    op: ConsumerOp,
    fb: nat,
    blockTail: nat,
    blockFront: nat,
    nb: nat,
    result: Option<T>,
    returned: bool,
    // Auxiliary: the number of calls begun, and whether this call saw an instant with nothing queued.
    calls: nat,
    sawEmpty: bool)

  datatype Memory<T> = Memory(
    blocks: seq<Block<T>>,
    frontBlock: nat,
    tailBlock: nat,
    largestBlockSize: nat,
    maxBlockSize: nat,
    // Auxiliary: the requested size, a lower bound of all block sizes, the ring of blocks from
    // `frontBlock` on, and the place of `tailBlock` in it.
    capacity: nat,
    minSize: nat,
    ring: seq<nat>,
    tailIndex: nat)

  /** The shared memory, the two threads, and (auxiliary) the elements enqueued and dequeued so far. */
  datatype State<T> = State(m: Memory<T>, p: Producer<T>, c: Consumer<T>, enqueued: seq<T>, dequeued: seq<T>)

  datatype Event<T> =
    | BeginEnqueue(elem: T, canAlloc: bool)
    | ProducerMoves(allocates: bool)
    | BeginConsume(op: ConsumerOp)
    | ConsumerMoves

  // ---------------------------------------------------------------------------------------------
  // What is queued

  function Live<T>(b: Block<T>): seq<T> {
    if b.removed <= b.added <= |b.history| then b.history[b.removed..b.added] else []
  }

  function Contents<T>(blocks: seq<Block<T>>, ids: seq<nat>): seq<T> {
    if ids == [] then []
    else (if ids[0] < |blocks| then Live(blocks[ids[0]]) else []) + Contents(blocks, ids[1..])
  }

  /** The abstract queue: the contents of the blocks from `frontBlock` round to `tailBlock`. */
  function Queue<T>(m: Memory<T>): seq<T> {
    if m.tailIndex < |m.ring| then Contents(m.blocks, m.ring[..m.tailIndex + 1]) else []
  }

  function WithBlock<T>(m: Memory<T>, id: nat, b: Block<T>): Memory<T>
    requires id < |m.blocks|
  {
    m.(blocks := m.blocks[id := b])
  }

  // ---------------------------------------------------------------------------------------------
  // The producer: inner_enqueue

  function PCrash<T>(s: State<T>): State<T> {
    s.(p := s.p.(pc := PCrashed))
  }

  function PReturn<T>(p: Producer<T>, result: bool): Producer<T> {
    p.(pc := PIdle, returned := result)
  }

  function BeginEnqueueStep<T>(s: State<T>, e: T, canAlloc: bool): State<T> {
    s.(p := s.p.(pc := PLoadLocalFront, canAlloc := canAlloc, elem := Some(e), tb := s.m.tailBlock,
                 outOfMemory := false, calls := s.p.calls + 1, sawFull := false))
  }

  function NewBlock<T>(size: nat): Block<T> {
    Block(size, 0, 0, 0, 0, -1, seq(size, i => None), 0, 0, 0, 0, [])
  }

  function FrontSeen<T>(b: Block<T>): Block<T> {
    b.(localFront := b.front, removedSeen := b.removed)
  }

  function TailSeen<T>(b: Block<T>): Block<T> {
    b.(localTail := b.tail, addedSeen := b.added)
  }

  function TailStored<T>(b: Block<T>, tail: nat, v: T): Block<T> {
    b.(tail := tail, added := b.added + 1, history := b.history + [v])
  }

  function FrontStored<T>(b: Block<T>, front: nat): Block<T> {
    b.(front := front, removed := b.removed + 1)
  }

  /** Placement new at slot i of block b: a crash when the slot is outside the block or holds a live element. */
  function Construct<T>(s: State<T>, b: nat, i: nat, after: ProducerPc): State<T>
    requires b < |s.m.blocks|
  {
    var blk := s.m.blocks[b];
    if i < |blk.slots| && blk.slots[i].None? then
      s.(m := WithBlock(s.m, b, blk.(slots := blk.slots[i := s.p.elem])), p := s.p.(pc := after))
    else PCrash(s)
  }

  function NewBlockSize<T>(m: Memory<T>): nat {
    if m.largestBlockSize >= m.maxBlockSize then m.largestBlockSize else m.largestBlockSize * 2
  }

  function ProducerStep<T>(s: State<T>, allocates: bool): State<T> {
    var p, m := s.p, s.m;
    if !(p.tb < |m.blocks| && p.nb < |m.blocks| && p.elem.Some? && m.blocks[p.tb].size > 0 && m.blocks[p.nb].size > 0)
    then PCrash(s) else
    var tb := m.blocks[p.tb];
    var nb := m.blocks[p.nb];
    match p.pc
    case PIdle => s
    case PLoadLocalFront =>
      s.(p := p.(pc := PLoadTail, blockFront := tb.localFront))
    case PLoadTail =>
      var next := (tb.tail + 1) % tb.size;
      s.(p := p.(pc := if next != p.blockFront then PConstruct else PLoadFront,
                 blockTail := tb.tail, nextTail := next))
    case PLoadFront =>
      s.(m := WithBlock(m, p.tb, FrontSeen(tb)),
         p := p.(pc := if p.nextTail != tb.front then PConstruct else PLoadNext,
                 sawFull := p.sawFull || |Queue(m)| >= m.capacity))
    case PConstruct => Construct(s, p.tb, p.blockTail, PStoreTail)
    case PStoreTail =>
      s.(m := WithBlock(m, p.tb, TailStored(tb, p.nextTail, p.elem.value)), p := PReturn(p, true),
         enqueued := s.enqueued + [p.elem.value])
    case PLoadNext =>
      if 0 <= tb.next < |m.blocks| then s.(p := p.(pc := PLoadFrontBlock, nb := tb.next)) else PCrash(s)
    case PLoadFrontBlock =>
      var p' := p.(sawFull := p.sawFull || |Queue(m)| >= m.capacity);
      s.(p := if p.nb != m.frontBlock then p'.(pc := PReloadNext)
              else if p.canAlloc then p'.(pc := PAlloc)
              else PReturn(p', false))
    case PReloadNext =>
      if 0 <= tb.next < |m.blocks| then s.(p := p.(pc := PLoadNextFront, nb := tb.next)) else PCrash(s)
    case PLoadNextFront =>
      s.(m := WithBlock(m, p.nb, FrontSeen(nb)), p := p.(pc := PLoadNextTail, nextFront := nb.front))
    case PLoadNextTail =>
      if p.nextFront != nb.tail then PCrash(s)  // assert(nextBlockFront == nextBlockTail)
      else s.(p := p.(pc := PNextConstruct, nextTail := nb.tail))
    case PNextConstruct => Construct(s, p.nb, p.nextTail, PNextStoreTail)
    case PNextStoreTail =>
      s.(m := WithBlock(m, p.nb, TailStored(nb, (p.nextTail + 1) % nb.size, p.elem.value)), p := p.(pc := PStoreTailBlock))
    case PStoreTailBlock =>
      s.(m := m.(tailBlock := p.nb, tailIndex := m.tailIndex + 1), p := PReturn(p, true),
         enqueued := s.enqueued + [p.elem.value])
    case PAlloc =>
      if !allocates then s.(p := PReturn(p.(outOfMemory := true), false))
      else s.(m := m.(blocks := m.blocks + [NewBlock(NewBlockSize(m))], largestBlockSize := NewBlockSize(m)),
              p := p.(pc := PNewConstruct, nb := |m.blocks|))
    case PNewConstruct => Construct(s, p.nb, 0, PNewInit)
    case PNewInit =>
      if nb.front != 0 then PCrash(s)  // assert(newBlock->front == 0)
      else s.(m := WithBlock(m, p.nb, TailStored(nb, 1, p.elem.value).(localTail := 1, addedSeen := nb.added + 1)),
              p := p.(pc := PNewLink))
    case PNewLink =>
      s.(m := WithBlock(m, p.nb, nb.(next := tb.next)), p := p.(pc := PLink))
    case PLink =>
      s.(m := Linked(WithBlock(m, p.tb, tb.(next := p.nb)), p.nb), p := p.(pc := PStoreTailBlock))
    case PCrashed => s
  }

  /** Auxiliary: block id joins the ring behind the tail block. */
  function Linked<T>(m: Memory<T>, id: nat): Memory<T> {
    if m.tailIndex < |m.ring| then m.(ring := m.ring[..m.tailIndex + 1] + [id] + m.ring[m.tailIndex + 1..]) else m
  }

  // ---------------------------------------------------------------------------------------------
  // The consumer: try_dequeue, pop and peek

  function CCrash<T>(s: State<T>): State<T> {
    s.(c := s.c.(pc := CCrashed))
  }

  function BeginConsumeStep<T>(s: State<T>, op: ConsumerOp): State<T> {
    s.(c := s.c.(pc := CLoadLocalTail, op := op, fb := s.m.frontBlock, result := None,
                 calls := s.c.calls + 1, sawEmpty := false))
  }

  /** Reads the element at slot i of block b: a crash when the slot is outside the block or raw memory. */
  function Read<T>(s: State<T>, b: nat, i: nat, after: ConsumerPc, returned: bool): State<T>
    requires b < |s.m.blocks|
  {
    var blk := s.m.blocks[b];
    if i < |blk.slots| && blk.slots[i].Some? then s.(c := s.c.(pc := after, result := blk.slots[i], returned := returned))
    else CCrash(s)
  }

  /** Auxiliary: the front block goes to the end of the ring. */
  function Rotated<T>(m: Memory<T>): Memory<T> {
    if m.ring == [] || m.tailIndex == 0 then m
    else m.(ring := m.ring[1..] + [m.ring[0]], tailIndex := m.tailIndex - 1)
  }

  function ConsumerStep<T>(s: State<T>): State<T> {
    var c, m := s.c, s.m;
    if !(c.fb < |m.blocks| && c.nb < |m.blocks| && m.blocks[c.fb].size > 0) then CCrash(s) else
    var fb := m.blocks[c.fb];
    var nb := m.blocks[c.nb];
    match c.pc
    case CIdle => s
    case CLoadLocalTail =>
      s.(c := c.(pc := CLoadFront, blockTail := fb.localTail))
    case CLoadFront =>
      s.(c := c.(pc := if fb.front != c.blockTail then CRead else CLoadTail, blockFront := fb.front))
    case CLoadTail =>
      s.(m := WithBlock(m, c.fb, TailSeen(fb)),
         c := c.(pc := if c.blockFront != fb.tail then CRead else CLoadTailBlock,
                 sawEmpty := c.sawEmpty || |Queue(m)| == 0))
    case CLoadTailBlock =>
      s.(c := if c.fb != m.tailBlock then c.(pc := CReloadFrontBlock) else c.(pc := CIdle, returned := false))
    case CReloadFrontBlock =>
      s.(c := c.(pc := CReloadTail, fb := m.frontBlock))
    case CReloadTail =>
      s.(m := WithBlock(m, c.fb, TailSeen(fb)), c := c.(pc := CReloadFront, blockTail := fb.tail))
    case CReloadFront =>
      s.(c := c.(pc := if fb.front != c.blockTail then CRead else CLoadNext, blockFront := fb.front))
    case CLoadNext =>
      if 0 <= fb.next < |m.blocks| then s.(c := c.(pc := CLoadNextFront, nb := fb.next)) else CCrash(s)
    case CLoadNextFront =>
      s.(c := c.(pc := CLoadNextTail, blockFront := nb.front))
    case CLoadNextTail =>
      if c.blockFront == nb.tail then CCrash(s)  // assert(nextBlockFront != nextBlockTail)
      else if c.op.Peek? then Read(s, c.nb, c.blockFront, CIdle, true)
      else s.(m := WithBlock(m, c.nb, TailSeen(nb)), c := c.(pc := CStoreFrontBlock))
    case CStoreFrontBlock =>
      s.(m := Rotated(m.(frontBlock := c.nb)), c := c.(pc := CRead, fb := c.nb))
    case CRead =>
      (match c.op
       case TryDequeue => Read(s, c.fb, c.blockFront, CDestroy, c.returned)
       case Peek => Read(s, c.fb, c.blockFront, CIdle, true)
       case Pop => s.(c := c.(pc := CDestroy)))
    case CDestroy =>
      if c.blockFront < |fb.slots| && fb.slots[c.blockFront].Some? then
        s.(m := WithBlock(m, c.fb, fb.(slots := fb.slots[c.blockFront := None])), c := c.(pc := CStoreFront))
      else CCrash(s)
    case CStoreFront =>
      s.(m := WithBlock(m, c.fb, FrontStored(fb, (c.blockFront + 1) % fb.size)),
         c := c.(pc := CIdle, returned := true), dequeued := s.dequeued + Taken(c, fb))
    case CCrashed => s
  }

  /** Auxiliary: the element a call takes out: what try_dequeue moved into its result, what pop dropped. */
  function Taken<T>(c: Consumer<T>, fb: Block<T>): seq<T> {
    if c.op.TryDequeue? then (if c.result.Some? then [c.result.value] else [])
    else if fb.removed < |fb.history| then [fb.history[fb.removed]] else []
  }

  // ---------------------------------------------------------------------------------------------
  // Runs

  /** One step; a thread begins a call only between calls, and moves only inside one. */
  function Step<T>(s: State<T>, e: Event<T>): State<T> {
    match e
    case BeginEnqueue(x, canAlloc) => if s.p.pc.PIdle? then BeginEnqueueStep(s, x, canAlloc) else s
    case ProducerMoves(allocates) => if s.p.pc.PIdle? then s else ProducerStep(s, allocates)
    case BeginConsume(op) => if s.c.pc.CIdle? then BeginConsumeStep(s, op) else s
    case ConsumerMoves => if s.c.pc.CIdle? then s else ConsumerStep(s)
  }

  function Run<T>(s: State<T>, events: seq<Event<T>>): State<T>
    decreases |events|
  {
    if events == [] then s else Step(Run(s, events[..|events| - 1]), events[|events| - 1])
  }
}
