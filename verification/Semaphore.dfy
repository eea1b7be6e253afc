/**
  LightweightSemaphore of 3rdparty/readerwriterqueue/atomicops.h, used by one waiter and one signaller.
  Every load and fetch-add of `m_count` and every kernel operation is one step.
 */
module Semaphore {

  datatype WaiterPc =
    | WIdle
    | WTryLoad        // tryWait: load m_count
    | WTryTake        // tryWait: fetch_add(-1) after a positive load
    | WSpin(left: nat)  // waitWithPartialSpinning: the spin loop
    | WSpinTake
    | WTake           // fetch_add(-1) after the spin loop
    | WKernel         // m_sema.wait or timed_wait
    | WUndo           // fetch_add(1) after a timeout
    | WRetake         // fetch_add(-1) when the signaller was faster
    | WKernelTry      // m_sema.try_wait

  /** What the waiter called: tryWait, or wait with a timeout (negative: none). */
  datatype WaitKind = TryWait | Wait(timeout: int)

  datatype SignallerPc = SIdle | SPost

  datatype Sema = Sema(
    count: int,
    kernel: nat,
    w: WaiterPc,
    kind: WaitKind,
    waited: bool,      // the result of the last finished wait
    s: SignallerPc,
    asserted: bool,    // every assert(oldCount >= -1) held so far
    // Auxiliary: units given at construction or by signal, and waits that succeeded.
    given: nat,
    taken: nat)

  datatype SemaEvent =
    | BeginWait(kind: WaitKind)
    | WaiterMoves(inTime: bool)   // inTime: a kernel wait is served if a post is there
    | Signal(units: nat)
    | SignallerMoves

  const SPIN: nat := 1024

  function New(initial: nat): Sema {
    Sema(initial, 0, WIdle, TryWait, false, SIdle, true, initial, 0)
  }

  function Finish(m: Sema, ok: bool): Sema {
    m.(w := WIdle, waited := ok, taken := if ok then m.taken + 1 else m.taken)
  }

  /** After tryWait found nothing: tryWait gives up, wait starts to spin. */
  function AfterTry(m: Sema): Sema {
    if m.kind.TryWait? then Finish(m, false) else m.(w := WSpin(SPIN))
  }

  function WaiterStep(m: Sema, inTime: bool): Sema {
    match m.w
    case WIdle => m
    case WTryLoad => if m.count > 0 then m.(w := WTryTake) else AfterTry(m)
    case WTryTake => Finish(m.(count := m.count - 1), true)
    case WSpin(left) =>
      if left == 0 then m.(w := WTake)
      else if m.count > 0 then m.(w := WSpinTake)
      else m.(w := WSpin(left - 1))
    case WSpinTake => Finish(m.(count := m.count - 1), true)
    case WTake =>
      var m' := m.(count := m.count - 1);
      if m.count > 0 then Finish(m', true)
      else if m.kind.Wait? && m.kind.timeout == 0 then m'.(w := WUndo)
      else m'.(w := WKernel)
    case WKernel =>
      if !inTime then m.(w := WUndo)
      else if m.kernel > 0 then Finish(m.(kernel := m.kernel - 1), true)
      else m  // still blocked
    case WUndo =>
      var m' := m.(count := m.count + 1);
      if m.count < 0 then Finish(m', false) else m'.(w := WRetake)
    case WRetake =>
      var m' := m.(count := m.count - 1);
      if m.count > 0 then m'.(w := WKernelTry) else m'.(w := WUndo)
    case WKernelTry =>
      if m.kernel > 0 then Finish(m.(kernel := m.kernel - 1), true) else m.(w := WUndo)
  }

  function SignalStep(m: Sema, units: nat): Sema {
    m.(count := m.count + units, s := if m.count < 0 then SPost else SIdle, given := m.given + units,
       asserted := m.asserted && m.count >= -1)
  }

  function SemaStep(m: Sema, e: SemaEvent): Sema {
    match e
    case BeginWait(kind) => if m.w.WIdle? then m.(w := WTryLoad, kind := kind) else m
    case WaiterMoves(inTime) => WaiterStep(m, inTime)
    case Signal(units) => if m.s.SIdle? then SignalStep(m, units) else m
    case SignallerMoves => if m.s.SPost? then m.(kernel := m.kernel + 1, s := SIdle) else m
  }

  function SemaRun(m: Sema, events: seq<SemaEvent>): Sema
    decreases |events|
  {
    if events == [] then m else SemaStep(SemaRun(m, events[..|events| - 1]), events[|events| - 1])
  }

  // ---------------------------------------------------------------------------------------------

  /** The waiter has taken one off the count without holding a unit. */
  predicate Owes(w: WaiterPc) {
    w.WKernel? || w.WUndo? || w.WKernelTry?
  }

  /** Kernel posts made or about to be made. */
  function Posts(m: Sema): nat {
    m.kernel + if m.s.SPost? then 1 else 0
  }

  predicate SemaInv(m: Sema) {
    && m.asserted && m.taken <= m.given
    && m.count == m.given - m.taken - (if Owes(m.w) then 1 else 0)
    && (Owes(m.w) ==> Posts(m) == if m.count >= 0 then 1 else 0)
    && (m.w.WRetake? ==> Posts(m) == 1 && m.count > 0)
    && (!Owes(m.w) && !m.w.WRetake? ==> Posts(m) == 0)
    && (m.w.WTryTake? || m.w.WSpinTake? ==> m.count > 0)
    && (m.w.WSpin? || m.w.WTake? || m.w.WSpinTake? || Owes(m.w) || m.w.WRetake? ==> m.kind.Wait?)
    && (m.w.WKernel? ==> m.kind.timeout != 0)
  }

  predicate Positive(e: SemaEvent) {
    e.Signal? ==> e.units >= 1
  }

  lemma SemaStepKeeps(m: Sema, e: SemaEvent)
    requires SemaInv(m) && Positive(e)
    ensures SemaInv(SemaStep(m, e))
  {
  }

  /** A step of the waiter takes a unit exactly when it ends a successful wait. */
  lemma WaitCounts(m: Sema, inTime: bool)
    requires SemaInv(m) && !m.w.WIdle?
    ensures var m' := SemaStep(m, WaiterMoves(inTime));
            SemaInv(m') && m'.given == m.given && m'.s == m.s && m'.taken == m.taken + (if m'.w.WIdle? && m'.waited then 1 else 0)
  {
  }

  /**
    A wait fails only when every unit given was taken: tryWait at its one look at the count, a wait with a timeout only
    after its time is over and its claim is undone. Before that a wait with timeout zero never enters the kernel.
   */
  lemma FailsOnlyWithoutUnits(m: Sema, inTime: bool)
    requires SemaInv(m) && !m.w.WIdle?
    ensures var m' := SemaStep(m, WaiterMoves(inTime));
            && (m'.w.WIdle? && !m'.waited ==> m.given == m.taken && (if m.kind.TryWait? then m.w.WTryLoad? else m.w.WUndo?))
            && (m'.w.WKernel? ==> m.kind.Wait? && m.kind.timeout != 0)
            && (m'.w.WUndo? && !Owes(m.w) && !m.w.WRetake? ==> m.kind == Wait(0))
            && (m'.w.WUndo? && m.w.WKernel? ==> !inTime)
            && m'.kind == m.kind
  {
  }

  lemma {:induction false} SemaRunKeeps(m: Sema, events: seq<SemaEvent>)
    requires SemaInv(m) && forall i :: 0 <= i < |events| ==> Positive(events[i])
    ensures SemaInv(SemaRun(m, events))
    decreases |events|
  {
    if events != [] {
      SemaRunKeeps(m, events[..|events| - 1]);
      SemaStepKeeps(SemaRun(m, events[..|events| - 1]), events[|events| - 1]);
    }
  }

  /**
    Whenever the waiter is outside `wait`, the count is what was given less what was taken, and no
    kernel post is left over or pending.
   */
  lemma CountIsExact(initial: nat, events: seq<SemaEvent>)
    requires forall i :: 0 <= i < |events| ==> Positive(events[i])
    ensures var m := SemaRun(New(initial), events);
            && m.asserted
            && (m.w.WIdle? ==> m.count == m.given - m.taken >= 0 && Posts(m) == 0)
  {
    SemaRunKeeps(New(initial), events);
  }

  /**
    A blocked waiter for whom a unit has been signalled is served: a post is available or about to be
    made, also through the timed-out undo loop; and without such a unit no post can wake it.
   */
  lemma NoLostWakeup(initial: nat, events: seq<SemaEvent>)
    requires forall i :: 0 <= i < |events| ==> Positive(events[i])
    ensures var m := SemaRun(New(initial), events);
            Owes(m.w) || m.w.WRetake? ==> (Posts(m) == 1 <==> m.given - m.taken >= 1) && Posts(m) <= 1
  {
    SemaRunKeeps(New(initial), events);
  }

  /** A signal keeps the books exactly when it gives a unit or nobody is blocked. */
  lemma SignalKeepsIff(m: Sema, units: nat)
    requires SemaInv(m) && m.s.SIdle?
    ensures SemaInv(SignalStep(m, units)) <==> units >= 1 || m.count >= 0
  {
  }

  /** Signalling zero units wakes a blocked waiter, which leaves with a unit that nobody gave. */
  lemma SignalZeroWakes() returns (events: seq<SemaEvent>)
    ensures SemaRun(New(0), events).taken > SemaRun(New(0), events).given
  {
    hide SemaRun;
    var m := New(0);
    events := [];
    assert SemaRun(m, events) == m by { NoEvents(m); }
    events := Then(m, events, BeginWait(Wait(-1)));
    events := Then(m, events, WaiterMoves(true));
    var turns := SPIN;
    SpinsOut(m, events, turns, turns);
    events := events + Spins(turns);
    events := Then(m, events, WaiterMoves(true));
    events := Then(m, events, WaiterMoves(true));
    events := Then(m, events, Signal(0));
    events := Then(m, events, SignallerMoves);
    events := Then(m, events, WaiterMoves(true));
  }

  lemma NoEvents(m: Sema)
    ensures SemaRun(m, []) == m
  {
  }

  lemma Then(m: Sema, events: seq<SemaEvent>, e: SemaEvent) returns (more: seq<SemaEvent>)
    ensures more == events + [e] && SemaRun(m, more) == SemaStep(SemaRun(m, events), e)
  {
    more := events + [e];
    assert more[..|more| - 1] == events;
  }

  function Spins(n: nat): seq<SemaEvent> {
    if n == 0 then [] else Spins(n - 1) + [WaiterMoves(true)]
  }

  lemma {:induction false} SpinsOut(m: Sema, events: seq<SemaEvent>, n: nat, left: nat)
    requires SemaRun(m, events).w == WSpin(left) && SemaRun(m, events).count <= 0 && n <= left
    ensures SemaRun(m, events + Spins(n)) == SemaRun(m, events).(w := WSpin(left - n))
  {
    hide SemaRun;
    if n == 0 {
      assert events + Spins(n) == events;
    } else {
      SpinsOut(m, events, n - 1, left);
      assert events + Spins(n) == (events + Spins(n - 1)) + [WaiterMoves(true)];
      var more := Then(m, events + Spins(n - 1), WaiterMoves(true));
    }
  }


  // ---------------------------------------------------------------------------------------------
  // The undo loop ends

  function WaiterAgain(m: Sema, n: nat): Sema
    decreases n
  {
    if n == 0 then m else WaiterAgain(WaiterStep(m, false), n - 1)
  }

  /**
    A timed-out waiter leaves the undo loop within four of its own steps once no post is under way, and leaves it
    with a unit exactly when one was signalled for it.
   */
  lemma UndoLoopEnds(m: Sema)
    requires SemaInv(m) && m.s.SIdle? && (m.w.WUndo? || m.w.WRetake? || m.w.WKernelTry?)
    ensures var m' := WaiterAgain(m, 4);
            && m'.w.WIdle? && (m'.waited <==> m.given > m.taken)
            && m'.count == m'.given - m'.taken && m'.kernel == 0
  {
    var m1 := WaiterStep(m, false);
    var m2 := WaiterStep(m1, false);
    var m3 := WaiterStep(m2, false);
    assert WaiterAgain(m, 4) == WaiterAgain(m1, 3) == WaiterAgain(m2, 2) == WaiterAgain(m3, 1) == WaiterAgain(WaiterStep(m3, false), 0);
  }

  /** While a post is still under way, making it lets the loop end, with a unit. */
  lemma UndoLoopWaitsForPost(m: Sema)
    requires SemaInv(m) && m.s.SPost? && (m.w.WUndo? || m.w.WRetake? || m.w.WKernelTry?)
    ensures var m' := SemaStep(m, SignallerMoves);
            m'.s.SIdle? && WaiterAgain(m', 4).w.WIdle? && WaiterAgain(m', 4).waited
  {
    SemaStepKeeps(m, SignallerMoves);
    UndoLoopEnds(SemaStep(m, SignallerMoves));
  }
}
