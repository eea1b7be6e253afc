/** Every call on the queue ends within a fixed number of its own steps, whatever the other thread does. */
module SpscProgress {
  import opened SpscQueue
  import opened SpscInvariant
  import SpscRuns

  /** How many steps inner_enqueue can still take. */
  function EnqueueLeft(pc: ProducerPc): nat {
    match pc
    case PIdle => 0
    case PLoadLocalFront => 11
    case PLoadTail => 10
    case PLoadFront => 9
    case PConstruct => 2
    case PStoreTail => 1
    case PLoadNext => 8
    case PLoadFrontBlock => 7
    case PReloadNext => 6
    case PLoadNextFront => 5
    case PLoadNextTail => 4
    case PNextConstruct => 3
    case PNextStoreTail => 2
    case PStoreTailBlock => 1
    case PAlloc => 6
    case PNewConstruct => 5
    case PNewInit => 4
    case PNewLink => 3
    case PLink => 2
    case PCrashed => 0
  }

  /** How many steps try_dequeue, pop or peek can still take. */
  function ConsumeLeft(pc: ConsumerPc): nat {
    match pc
    case CIdle => 0
    case CLoadLocalTail => 14
    case CLoadFront => 13
    case CLoadTail => 12
    case CLoadTailBlock => 11
    case CReloadFrontBlock => 10
    case CReloadTail => 9
    case CReloadFront => 8
    case CLoadNext => 7
    case CLoadNextFront => 6
    case CLoadNextTail => 5
    case CStoreFrontBlock => 4
    case CRead => 3
    case CDestroy => 2
    case CStoreFront => 1
    case CCrashed => 0
  }

  lemma EnqueueAdvances<T>(s: State<T>, a: bool)
    requires !s.p.pc.PIdle? && !s.p.pc.PCrashed?
    ensures EnqueueLeft(ProducerStep(s, a).p.pc) < EnqueueLeft(s.p.pc)
  {
    hide ProducerStep, EnqueueLeft;
    GoesOn(s, a);
    LeftFalls(s.p.pc, ProducerStep(s, a).p.pc);
  }

  /** Where the program counter of inner_enqueue can go. */
  predicate GoesTo(pc: ProducerPc, next: ProducerPc) {
    next.PCrashed? ||
    match pc
    case PIdle => false
    case PLoadLocalFront => next.PLoadTail?
    case PLoadTail => next.PConstruct? || next.PLoadFront?
    case PLoadFront => next.PConstruct? || next.PLoadNext?
    case PConstruct => next.PStoreTail?
    case PStoreTail => next.PIdle?
    case PLoadNext => next.PLoadFrontBlock?
    case PLoadFrontBlock => next.PReloadNext? || next.PAlloc? || next.PIdle?
    case PReloadNext => next.PLoadNextFront?
    case PLoadNextFront => next.PLoadNextTail?
    case PLoadNextTail => next.PNextConstruct?
    case PNextConstruct => next.PNextStoreTail?
    case PNextStoreTail => next.PStoreTailBlock?
    case PStoreTailBlock => next.PIdle?
    case PAlloc => next.PNewConstruct? || next.PIdle?
    case PNewConstruct => next.PNewInit?
    case PNewInit => next.PNewLink?
    case PNewLink => next.PLink?
    case PLink => next.PStoreTailBlock?
    case PCrashed => false
  }

  lemma LeftFalls(pc: ProducerPc, next: ProducerPc)
    requires GoesTo(pc, next) && !pc.PIdle? && !pc.PCrashed?
    ensures EnqueueLeft(next) < EnqueueLeft(pc)
  {
  }

  lemma GoesOn<T>(s: State<T>, a: bool)
    requires !s.p.pc.PIdle? && !s.p.pc.PCrashed?
    ensures GoesTo(s.p.pc, ProducerStep(s, a).p.pc)
  {
    hide ProducerStep, GoesTo;
    if SpscRuns.OnTailBlock(s.p.pc) {
      GoesOnFromTail(s, a);
    } else if SpscRuns.OnNextBlock(s.p.pc) {
      GoesOnFromNext(s, a);
    } else {
      GoesOnFromNew(s, a);
    }
  }

  lemma GoesOnFromTail<T>(s: State<T>, a: bool)
    requires SpscRuns.OnTailBlock(s.p.pc)
    ensures GoesTo(s.p.pc, ProducerStep(s, a).p.pc)
  {
    hide Queue, WithBlock, FrontSeen, TailStored, Linked, NewBlock, NewBlockSize;
  }

  lemma GoesOnFromNext<T>(s: State<T>, a: bool)
    requires SpscRuns.OnNextBlock(s.p.pc)
    ensures GoesTo(s.p.pc, ProducerStep(s, a).p.pc)
  {
    hide Queue, WithBlock, FrontSeen, TailStored, Linked, NewBlock, NewBlockSize;
  }

  lemma GoesOnFromNew<T>(s: State<T>, a: bool)
    requires !SpscRuns.OnTailBlock(s.p.pc) && !SpscRuns.OnNextBlock(s.p.pc) && !s.p.pc.PIdle? && !s.p.pc.PCrashed?
    ensures GoesTo(s.p.pc, ProducerStep(s, a).p.pc)
  {
    hide Queue, WithBlock, FrontSeen, TailStored, Linked, NewBlock, NewBlockSize;
  }

  lemma ConsumeAdvances<T>(s: State<T>)
    requires !s.c.pc.CIdle? && !s.c.pc.CCrashed?
    ensures ConsumeLeft(ConsumerStep(s).c.pc) < ConsumeLeft(s.c.pc) && ConsumerStep(s).c.calls == s.c.calls
  {
    hide ConsumerStep, ConsumeLeft;
    if ConsumeLeft(s.c.pc) >= 8 {
      ConsumeLooks(s);
    } else {
      ConsumeTakes(s);
    }
  }

  lemma ConsumeLooks<T>(s: State<T>)
    requires ConsumeLeft(s.c.pc) >= 8
    ensures ConsumeLeft(ConsumerStep(s).c.pc) < ConsumeLeft(s.c.pc) && ConsumerStep(s).c.calls == s.c.calls
  {
    hide Queue, WithBlock, TailSeen, FrontStored, Rotated, Taken;
  }

  lemma ConsumeTakes<T>(s: State<T>)
    requires !s.c.pc.CIdle? && !s.c.pc.CCrashed? && ConsumeLeft(s.c.pc) < 8
    ensures ConsumeLeft(ConsumerStep(s).c.pc) < ConsumeLeft(s.c.pc) && ConsumerStep(s).c.calls == s.c.calls
  {
    hide Queue, WithBlock, TailSeen, FrontStored, Rotated, Taken;
  }

  /** The steps of the producer among the events, and those of the consumer. */
  function ProducerSteps<T>(events: seq<Event<T>>): nat
    decreases |events|
  {
    if events == [] then 0
    else ProducerSteps(events[..|events| - 1]) + (if events[|events| - 1].ProducerMoves? then 1 else 0)
  }

  function ConsumerSteps<T>(events: seq<Event<T>>): nat
    decreases |events|
  {
    if events == [] then 0
    else ConsumerSteps(events[..|events| - 1]) + (if events[|events| - 1].ConsumerMoves? then 1 else 0)
  }

  /** One event, seen by the producer: its call goes on and gets shorter by its own steps, or ends, or a new one begins. */
  lemma ProducerEvent<T>(s: State<T>, e: Event<T>)
    requires !s.p.pc.PCrashed?
    ensures var s' := Step(s, e);
            && s'.p.calls >= s.p.calls
            && (s'.p.calls == s.p.calls && !s'.p.pc.PIdle? ==>
                  !s.p.pc.PIdle? && EnqueueLeft(s'.p.pc) + (if e.ProducerMoves? then 1 else 0) <= EnqueueLeft(s.p.pc))
  {
    hide Queue, ProducerStep, ConsumerStep;
    SpscRuns.ConsumerLeavesProducer(s);
    if e.ProducerMoves? && !s.p.pc.PIdle? {
      EnqueueAdvances(s, e.allocates);
      SpscRuns.FullSeenByProducer(s, e.allocates);
    }
  }

  lemma ConsumerEvent<T>(s: State<T>, e: Event<T>)
    requires !s.c.pc.CCrashed?
    ensures var s' := Step(s, e);
            && s'.c.calls >= s.c.calls
            && (s'.c.calls == s.c.calls && !s'.c.pc.CIdle? ==>
                  !s.c.pc.CIdle? && ConsumeLeft(s'.c.pc) + (if e.ConsumerMoves? then 1 else 0) <= ConsumeLeft(s.c.pc))
  {
    hide Queue, ProducerStep, ConsumerStep;
    if e.ProducerMoves? {
      SpscRuns.ProducerLeavesConsumer(s, e.allocates);
    } else if e.ConsumerMoves? && !s.c.pc.CIdle? {
      ConsumeAdvances(s);
    }
  }

  lemma NotCrashed<T>(s: State<T>)
    requires Inv(s)
    ensures !s.p.pc.PCrashed? && !s.c.pc.CCrashed?
  {
    hide RingOk, BlocksOk, FillOk, SizesOk, HistoryOk, Queue;
  }

  /**
    Wait-freedom of the producer: an enqueue that has not ended took fewer of its own steps than it had left,
    however many steps the consumer took meanwhile; so it ends within eleven.
   */
  lemma {:induction false} EnqueueEnds<T>(s: State<T>, events: seq<Event<T>>)
    requires Inv(s)
    ensures var s' := Run(s, events);
            && s'.p.calls >= s.p.calls
            && (s'.p.calls == s.p.calls && !s'.p.pc.PIdle? ==>
                  !s.p.pc.PIdle? && EnqueueLeft(s'.p.pc) + ProducerSteps(events) <= EnqueueLeft(s.p.pc) <= 11)
    decreases |events|
  {
    hide Inv, Step;
    if events != [] {
      var before := events[..|events| - 1];
      EnqueueEnds(s, before);
      SpscRuns.RunKeeps(s, before);
      NotCrashed(Run(s, before));
      ProducerEvent(Run(s, before), events[|events| - 1]);
    }
  }

  /** Wait-freedom of the consumer: a dequeue, pop or peek ends within fourteen of its own steps. */
  lemma {:induction false} ConsumeEnds<T>(s: State<T>, events: seq<Event<T>>)
    requires Inv(s)
    ensures var s' := Run(s, events);
            && s'.c.calls >= s.c.calls
            && (s'.c.calls == s.c.calls && !s'.c.pc.CIdle? ==>
                  !s.c.pc.CIdle? && ConsumeLeft(s'.c.pc) + ConsumerSteps(events) <= ConsumeLeft(s.c.pc) <= 14)
    decreases |events|
  {
    hide Inv, Step;
    if events != [] {
      var before := events[..|events| - 1];
      ConsumeEnds(s, before);
      SpscRuns.RunKeeps(s, before);
      NotCrashed(Run(s, before));
      ConsumerEvent(Run(s, before), events[|events| - 1]);
    }
  }

  lemma LeftInCall<T>(s: State<T>)
    requires Inv(s)
    ensures !s.p.pc.PIdle? ==> EnqueueLeft(s.p.pc) >= 1
    ensures !s.c.pc.CIdle? ==> ConsumeLeft(s.c.pc) >= 1
  {
    hide Inv;
    NotCrashed(s);
  }

  /** On every run of a constructed queue: eleven steps of the producer end its call, fourteen of the consumer end its. */
  lemma CallsEnd<T>(s0: State<T>, size: nat, maxBlockSize: nat, rounded: nat, before: seq<Event<T>>, events: seq<Event<T>>)
    requires SpscRuns.Constructed(s0, size, maxBlockSize, rounded) && size >= 1
    ensures var s := Run(s0, before);
            var s' := Run(s, events);
            && (ProducerSteps(events) >= 11 ==> s'.p.pc.PIdle? || s'.p.calls > s.p.calls)
            && (ConsumerSteps(events) >= 14 ==> s'.c.pc.CIdle? || s'.c.calls > s.c.calls)
  {
    hide Inv, Run;
    SpscRuns.FreshOk(s0, size, maxBlockSize, rounded);
    SpscRuns.RunKeeps(s0, before);
    var s := Run(s0, before);
    SpscRuns.RunKeeps(s, events);
    EnqueueEnds(s, events);
    ConsumeEnds(s, events);
    LeftInCall(Run(s, events));
  }
}
