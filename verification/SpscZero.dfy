/** A queue built for zero elements: the one size for which an assertion of the original fails. */
module SpscZero {
  import opened Wrappers
  import opened Bits
  import opened SpscQueue
  import opened SpscRuns

  /** A block without its auxiliary counters. */
  datatype Bare = Bare(size: nat, front: nat, localTail: nat, tail: nat, localFront: nat, next: int, slots: seq<Option<int>>)

  function Strip(b: Block<int>): Bare {
    Bare(b.size, b.front, b.localTail, b.tail, b.localFront, b.next, b.slots)
  }

  /** The memory holds two blocks, the first of them the one the constructor made. */
  predicate Holds(m: Memory<int>, frontBlock: nat, tailBlock: nat, b0: Bare, b1: Bare) {
    |m.blocks| == 2 && m.frontBlock == frontBlock && m.tailBlock == tailBlock && Strip(m.blocks[0]) == b0 && Strip(m.blocks[1]) == b1
  }

  const GO: Event<int> := ProducerMoves(true)

  predicate PAt(s: State<int>, pc: ProducerPc, x: int, tb: nat, nb: nat) {
    s.p.pc == pc && s.p.elem == Some(x) && s.p.tb == tb && s.p.nb == nb && s.p.canAlloc
  }

  predicate CAt(s: State<int>, pc: ConsumerPc, fb: nat, nb: nat) {
    s.c.pc == pc && s.c.op.Pop? && s.c.fb == fb && s.c.nb == nb
  }

  function Two(s: State<int>, e: Event<int>): State<int> {
    Step(Step(s, e), e)
  }

  lemma RunTwo(s0: State<int>, events: seq<Event<int>>, e: Event<int>) returns (more: seq<Event<int>>)
    ensures Run(s0, more) == Two(Run(s0, events), e)
  {
    hide Step;
    more := RunOne(s0, events, e);
    more := RunOne(s0, more, e);
  }

  lemma RunOne(s0: State<int>, events: seq<Event<int>>, e: Event<int>) returns (more: seq<Event<int>>)
    ensures Run(s0, more) == Step(Run(s0, events), e)
  {
    hide Step;
    more := events + [e];
    assert more[..|more| - 1] == events;
  }

  const EMPTY0 := Bare(1, 0, 0, 0, 0, 1, [None])
  const FULL1 := Bare(2, 0, 1, 1, 0, 0, [Some(1), None])

  // ---------------------------------------------------------------------------------------------
  // The first enqueue finds no room in the block of one slot, and links a new block of two behind it

  predicate Lone(m: Memory<int>) {
    |m.blocks| == 1 && m.frontBlock == 0 && m.tailBlock == 0 && m.largestBlockSize == 1 && m.maxBlockSize >= 2
    && Strip(m.blocks[0]) == EMPTY0.(next := 0)
  }

  lemma FindsNoRoom(s: State<int>)
    requires PAt(s, PLoadLocalFront, 1, 0, 0) && Lone(s.m)
    ensures var s' := Two(s, GO); s'.c == s.c && PAt(s', PLoadFront, 1, 0, 0) && s'.p.nextTail == 0 && Lone(s'.m)
  {
    hide Queue;
  }

  lemma FindsItFull(s: State<int>)
    requires PAt(s, PLoadFront, 1, 0, 0) && s.p.nextTail == 0 && Lone(s.m)
    ensures var s' := Two(s, GO); s'.c == s.c && PAt(s', PLoadFrontBlock, 1, 0, 0) && Lone(s'.m)
  {
    hide Queue;
  }

  lemma AllocatesTwo(s: State<int>)
    requires PAt(s, PLoadFrontBlock, 1, 0, 0) && Lone(s.m)
    ensures var s' := Two(s, GO);
            s'.c == s.c && PAt(s', PNewConstruct, 1, 0, 1) && Holds(s'.m, 0, 0, EMPTY0.(next := 0), Bare(2, 0, 0, 0, 0, -1, [None, None]))
  {
    hide Queue;
    assert Two(s, GO).m.blocks[1].slots == [None, None];
  }

  lemma FillsNew(s: State<int>)
    requires PAt(s, PNewConstruct, 1, 0, 1) && Holds(s.m, 0, 0, EMPTY0.(next := 0), Bare(2, 0, 0, 0, 0, -1, [None, None]))
    ensures var s' := Two(s, GO);
            s'.c == s.c && PAt(s', PNewLink, 1, 0, 1) && Holds(s'.m, 0, 0, EMPTY0.(next := 0), FULL1.(next := -1))
  {
    hide Queue;
    assert Step(s, GO).m.blocks[1].slots == [Some(1), None];
  }

  lemma LinksNew(s: State<int>)
    requires PAt(s, PNewLink, 1, 0, 1) && Holds(s.m, 0, 0, EMPTY0.(next := 0), FULL1.(next := -1))
    ensures var s' := Two(s, GO); s'.c == s.c && PAt(s', PStoreTailBlock, 1, 0, 1) && Holds(s'.m, 0, 0, EMPTY0, FULL1)
  {
    hide Queue;
  }

  lemma Publishes(s: State<int>, x: int, tb: nat, nb: nat, b0: Bare, b1: Bare, f: nat, t: nat)
    requires PAt(s, PStoreTailBlock, x, tb, nb) && tb < 2 && nb < 2 && Holds(s.m, f, t, b0, b1) && b0.size > 0 && b1.size > 0
    ensures var s' := Step(s, GO); s'.c == s.c && s'.p.pc.PIdle? && s'.p.nb == nb && Holds(s'.m, f, nb, b0, b1)
  {
    hide Queue;
  }

  // ---------------------------------------------------------------------------------------------
  // A pop that finds its block drained looks for the next one

  predicate Drained(m: Memory<int>, f: nat, t: nat, b0: Bare, b1: Bare) {
    Holds(m, f, t, b0, b1) && f < 2 && t < 2 && f != t &&
    var b := if f == 0 then b0 else b1; b.size > 0 && b.front == b.tail && b.localTail == b.tail && b.next == t
  }

  lemma PopFindsNothing(s: State<int>, f: nat, t: nat, b0: Bare, b1: Bare, nb: nat)
    requires CAt(s, CLoadLocalTail, f, nb) && nb < 2 && Drained(s.m, f, t, b0, b1)
    ensures var s' := Two(s, ConsumerMoves);
            s'.p == s.p && CAt(s', CLoadTail, f, nb) && s'.c.blockFront == s'.m.blocks[f].front && Drained(s'.m, f, t, b0, b1)
  {
    hide Queue;
  }

  lemma PopLooksOn(s: State<int>, f: nat, t: nat, b0: Bare, b1: Bare, nb: nat)
    requires CAt(s, CLoadTail, f, nb) && nb < 2 && Drained(s.m, f, t, b0, b1) && s.c.blockFront == s.m.blocks[f].front
    ensures var s' := Two(s, ConsumerMoves); s'.p == s.p && CAt(s', CReloadFrontBlock, f, nb) && Drained(s'.m, f, t, b0, b1)
  {
    hide Queue;
  }

  lemma PopReloads(s: State<int>, f: nat, t: nat, b0: Bare, b1: Bare, nb: nat)
    requires CAt(s, CReloadFrontBlock, f, nb) && nb < 2 && Drained(s.m, f, t, b0, b1)
    ensures var s' := Two(s, ConsumerMoves);
            s'.p == s.p && CAt(s', CReloadFront, f, nb) && s'.c.blockTail == s'.m.blocks[f].front && Drained(s'.m, f, t, b0, b1)
  {
    hide Queue;
  }

  lemma PopTakesNext(s: State<int>, f: nat, t: nat, b0: Bare, b1: Bare, nb: nat)
    requires CAt(s, CReloadFront, f, nb) && nb < 2 && Drained(s.m, f, t, b0, b1) && s.c.blockTail == s.m.blocks[f].front
    ensures var s' := Two(s, ConsumerMoves); s'.p == s.p && CAt(s', CLoadNextFront, f, t) && Drained(s'.m, f, t, b0, b1)
  {
    hide Queue;
  }

  lemma PopLooksAround(s0: State<int>, before: seq<Event<int>>, f: nat, t: nat, b0: Bare, b1: Bare, nb: nat) returns (events: seq<Event<int>>)
    requires var s := Run(s0, before); s.c.pc.CIdle? && s.c.nb == nb && nb < 2 && Drained(s.m, f, t, b0, b1)
    ensures var s := Run(s0, events); s.p == Run(s0, before).p && CAt(s, CLoadNextFront, f, t) && Drained(s.m, f, t, b0, b1)
  {
    events := RunOne(s0, before, BeginConsume(Pop));
    hide ConsumerStep, Two, Queue, Run;
    PopFindsNothing(Run(s0, events), f, t, b0, b1, nb);
    events := RunTwo(s0, events, ConsumerMoves);
    PopLooksOn(Run(s0, events), f, t, b0, b1, nb);
    events := RunTwo(s0, events, ConsumerMoves);
    PopReloads(Run(s0, events), f, t, b0, b1, nb);
    events := RunTwo(s0, events, ConsumerMoves);
    PopTakesNext(Run(s0, events), f, t, b0, b1, nb);
    events := RunTwo(s0, events, ConsumerMoves);
  }

  lemma PopChecksNext(s: State<int>)
    requires CAt(s, CLoadNextFront, 0, 1) && Holds(s.m, 0, 1, EMPTY0, FULL1)
    ensures var s' := Two(s, ConsumerMoves);
            s'.p == s.p && CAt(s', CStoreFrontBlock, 0, 1) && s'.c.blockFront == 0 && Holds(s'.m, 0, 1, EMPTY0, FULL1)
  {
    hide Queue;
  }

  lemma PopMovesOn(s: State<int>)
    requires CAt(s, CStoreFrontBlock, 0, 1) && s.c.blockFront == 0 && Holds(s.m, 0, 1, EMPTY0, FULL1)
    ensures var s' := Step(s, ConsumerMoves);
            s'.p == s.p && CAt(s', CRead, 1, 1) && s'.c.blockFront == 0 && Holds(s'.m, 1, 1, EMPTY0, FULL1)
  {
    hide Queue;
  }

  // ---------------------------------------------------------------------------------------------
  // A second enqueue finds the new block full and reuses the block of one slot: its tail wraps to its front

  lemma FindsNewFull(s: State<int>)
    requires PAt(s, PLoadLocalFront, 2, 1, 1) && Holds(s.m, 1, 1, EMPTY0, FULL1)
    ensures var s' := Two(s, GO); s'.c == s.c && PAt(s', PLoadFront, 2, 1, 1) && s'.p.nextTail == 0 && Holds(s'.m, 1, 1, EMPTY0, FULL1)
  {
    hide Queue;
  }

  lemma FindsItStillFull(s: State<int>)
    requires PAt(s, PLoadFront, 2, 1, 1) && s.p.nextTail == 0 && Holds(s.m, 1, 1, EMPTY0, FULL1)
    ensures var s' := Two(s, GO); s'.c == s.c && PAt(s', PLoadFrontBlock, 2, 1, 0) && Holds(s'.m, 1, 1, EMPTY0, FULL1)
  {
    hide Queue;
  }

  lemma GoesOn(s: State<int>)
    requires PAt(s, PLoadFrontBlock, 2, 1, 0) && Holds(s.m, 1, 1, EMPTY0, FULL1)
    ensures var s' := Two(s, GO); s'.c == s.c && PAt(s', PLoadNextFront, 2, 1, 0) && Holds(s'.m, 1, 1, EMPTY0, FULL1)
  {
    hide Queue;
  }

  lemma ChecksEmpty(s: State<int>)
    requires PAt(s, PLoadNextFront, 2, 1, 0) && Holds(s.m, 1, 1, EMPTY0, FULL1)
    ensures var s' := Two(s, GO); s'.c == s.c && PAt(s', PNextConstruct, 2, 1, 0) && s'.p.nextTail == 0 && Holds(s'.m, 1, 1, EMPTY0, FULL1)
  {
    hide Queue;
  }

  lemma Wraps(s: State<int>)
    requires PAt(s, PNextConstruct, 2, 1, 0) && s.p.nextTail == 0 && Holds(s.m, 1, 1, EMPTY0, FULL1)
    ensures var s' := Two(s, GO); s'.c == s.c && PAt(s', PStoreTailBlock, 2, 1, 0) && Holds(s'.m, 1, 1, EMPTY0.(slots := [Some(2)]), FULL1)
  {
    hide Queue;
    assert Step(s, GO).m.blocks[0].slots == [Some(2)];
  }

  // ---------------------------------------------------------------------------------------------
  // The pop ends; the next one finds the element gone

  const GONE1 := Bare(2, 1, 1, 1, 0, 0, [None, None])

  lemma PopDestroys(s: State<int>)
    requires CAt(s, CRead, 1, 1) && s.c.blockFront == 0 && Holds(s.m, 1, 0, EMPTY0.(slots := [Some(2)]), FULL1)
    ensures var s' := Two(s, ConsumerMoves);
            CAt(s', CStoreFront, 1, 1) && s'.c.blockFront == 0 && Holds(s'.m, 1, 0, EMPTY0.(slots := [Some(2)]), FULL1.(slots := [None, None]))
  {
    hide Queue;
    assert Two(s, ConsumerMoves).m.blocks[1].slots == [None, None];
  }

  lemma PopEnds(s: State<int>)
    requires CAt(s, CStoreFront, 1, 1) && s.c.blockFront == 0 && Holds(s.m, 1, 0, EMPTY0.(slots := [Some(2)]), FULL1.(slots := [None, None]))
    ensures var s' := Step(s, ConsumerMoves); s'.c.pc.CIdle? && s'.c.nb == 1 && Holds(s'.m, 1, 0, EMPTY0.(slots := [Some(2)]), GONE1)
  {
    hide Queue;
  }

  lemma PopFails(s: State<int>)
    requires CAt(s, CLoadNextFront, 1, 0) && Holds(s.m, 1, 0, EMPTY0.(slots := [Some(2)]), GONE1)
    ensures Two(s, ConsumerMoves).c.pc.CCrashed?
  {
    hide Queue;
  }

  // ---------------------------------------------------------------------------------------------
  // The whole run

  function Built(max: nat): State<int> {
    Fresh(0, 1, 1, max)
  }

  lemma ZeroSizeBegins(max: nat) returns (events: seq<Event<int>>)
    requires max >= 2
    ensures var s := Run(Built(max), events); PAt(s, PLoadLocalFront, 1, 0, 0) && s.c == IdleConsumer() && Lone(s.m)
  {
    hide ProducerStep, ConsumerStep, Queue;
    events := RunOne(Built(max), [], BeginEnqueue(1, true));
    assert Built(max).m.blocks[0].slots == [None];
  }

  lemma ZeroSizeEnqueues(max: nat) returns (events: seq<Event<int>>)
    requires max >= 2
    ensures var s := Run(Built(max), events); s.p.pc.PIdle? && s.p.nb == 1 && s.c == IdleConsumer() && Holds(s.m, 0, 1, EMPTY0, FULL1)
  {
    hide ProducerStep, ConsumerStep, Step, Two, Holds, Lone, Queue, Run;
    events := ZeroSizeBegins(max);
    FindsNoRoom(Run(Built(max), events));
    events := RunTwo(Built(max), events, GO);
    FindsItFull(Run(Built(max), events));
    events := RunTwo(Built(max), events, GO);
    AllocatesTwo(Run(Built(max), events));
    events := RunTwo(Built(max), events, GO);
    FillsNew(Run(Built(max), events));
    events := RunTwo(Built(max), events, GO);
    LinksNew(Run(Built(max), events));
    events := RunTwo(Built(max), events, GO);
    Publishes(Run(Built(max), events), 1, 0, 1, EMPTY0, FULL1, 0, 0);
    events := RunOne(Built(max), events, GO);
  }

  lemma ZeroSizeReuses(max: nat, before: seq<Event<int>>) returns (events: seq<Event<int>>)
    requires var s := Run(Built(max), before); s.p.pc.PIdle? && s.p.nb == 1 && CAt(s, CRead, 1, 1) && s.c.blockFront == 0 && Holds(s.m, 1, 1, EMPTY0, FULL1)
    ensures var s := Run(Built(max), events); CAt(s, CRead, 1, 1) && s.c.blockFront == 0 && Holds(s.m, 1, 0, EMPTY0.(slots := [Some(2)]), FULL1)
  {
    events := RunOne(Built(max), before, BeginEnqueue(2, true));
    hide ProducerStep, ConsumerStep, Two, Queue, Run;
    FindsNewFull(Run(Built(max), events));
    events := RunTwo(Built(max), events, GO);
    FindsItStillFull(Run(Built(max), events));
    events := RunTwo(Built(max), events, GO);
    GoesOn(Run(Built(max), events));
    events := RunTwo(Built(max), events, GO);
    ChecksEmpty(Run(Built(max), events));
    events := RunTwo(Built(max), events, GO);
    Wraps(Run(Built(max), events));
    events := RunTwo(Built(max), events, GO);
    Publishes(Run(Built(max), events), 2, 1, 0, EMPTY0.(slots := [Some(2)]), FULL1, 1, 1);
    events := RunOne(Built(max), events, GO);
  }

  /**
    For a queue built for zero elements some run fails assert(nextBlockFront != nextBlockTail): the block of
    one slot, once reused, holds an element while its front equals its tail.
   */
  lemma ZeroSizeCrashes(max: nat) returns (events: seq<Event<int>>)
    requires max >= 2
    ensures Constructed(Built(max), 0, max, 1)
    ensures Run(Built(max), events).c.pc.CCrashed?
  {
    assert Pow2(0) == 1;
    hide ProducerStep, ConsumerStep, Step, Two, Queue, Run;
    events := ZeroSizeEnqueues(max);
    events := PopLooksAround(Built(max), events, 0, 1, EMPTY0, FULL1, 0);
    PopChecksNext(Run(Built(max), events));
    events := RunTwo(Built(max), events, ConsumerMoves);
    PopMovesOn(Run(Built(max), events));
    events := RunOne(Built(max), events, ConsumerMoves);
    events := ZeroSizeReuses(max, events);
    PopDestroys(Run(Built(max), events));
    events := RunTwo(Built(max), events, ConsumerMoves);
    PopEnds(Run(Built(max), events));
    events := RunOne(Built(max), events, ConsumerMoves);
    events := PopLooksAround(Built(max), events, 1, 0, EMPTY0.(slots := [Some(2)]), GONE1, 1);
    PopFails(Run(Built(max), events));
    events := RunTwo(Built(max), events, ConsumerMoves);
  }

  /** The exact condition: the queue is safe on every run if and only if it was built for at least one element. */
  lemma SafeExactlyFromOneOn(s0: State<int>, size: nat, maxBlockSize: nat, rounded: nat)
    requires Constructed(s0, size, maxBlockSize, rounded)
    ensures size >= 1 <==> forall events :: !Run(s0, events).p.pc.PCrashed? && !Run(s0, events).c.pc.CCrashed?
  {
    hide Run;
    if size >= 1 {
      forall events ensures !Run(s0, events).p.pc.PCrashed? && !Run(s0, events).c.pc.CCrashed? {
        NeverCrashes(s0, size, maxBlockSize, rounded, events);
      }
    } else {
      NoLarger(rounded, 1, 0);
      Pow2Positive(rounded, 1);
      var events := ZeroSizeCrashes(maxBlockSize);
    }
  }

  lemma Pow2Positive(rounded: nat, x: nat)
    requires IsLeastPow2(rounded, x) && x >= 1
    ensures rounded >= 1
  {
  }
}
