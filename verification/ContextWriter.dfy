/** The bounded background writer of src/addon/core/context_writer.cpp: every critical section is one step. */
module ContextWriter {

  datatype Task = Task(line: string, maxLines: int)

  const MAX_BYTES: nat := 4 * 1024 * 1024
  const MAX_ENTRIES: nat := 1024
  const TRUNCATE_INTERVAL: nat := 100

  datatype Worker = Waiting | Writing(task: Task) | Exited

  /** What became of an accepted entry that left the queue. */
  datatype Fate = Taken | Evicted

  datatype Writer = Writer(
    pending: seq<Task>,
    pendingBytes: int,
    dropped: nat,
    stopping: bool,
    worker: Worker,
    file: seq<string>,
    writeCount: nat,
    // Auxiliary: the entries accepted so far and the fates of those that left the queue, the entries given to
    // Persist and whether the file could be opened for each, the entries refused for their size.
    accepted: seq<Task>,
    fates: seq<Fate>,
    persisted: seq<Task>,
    reached: seq<bool>,
    refused: nat)

  function Start(): Writer {
    Writer([], 0, 0, false, Waiting, [], 0, [], [], [], [], 0)
  }

  function Total(tasks: seq<Task>): (n: nat) {
    if tasks == [] then 0 else |tasks[0].line| + Total(tasks[1..])
  }

  // ---------------------------------------------------------------------------------------------
  // The steps

  function PopFront(w: Writer, fate: Fate): Writer
    requires w.pending != []
  {
    w.(pending := w.pending[1..], pendingBytes := w.pendingBytes - |w.pending[0].line|, fates := w.fates + [fate])
  }

  predicate Crowded(w: Writer, size: nat) {
    |w.pending| >= MAX_ENTRIES || w.pendingBytes > MAX_BYTES - size
  }

  function Evict(w: Writer, size: nat): Writer
    decreases |w.pending|
  {
    if w.pending != [] && Crowded(w, size) then Evict(PopFront(w, Evicted).(dropped := w.dropped + 1), size) else w
  }

  function PushBack(w: Writer, t: Task): Writer {
    w.(pendingBytes := w.pendingBytes + |t.line|, pending := w.pending + [t], accepted := w.accepted + [t])
  }

  function EnqueueStep(w: Writer, t: Task): Writer {
    if t.maxLines <= 0 || t.line == [] || w.stopping then w
    else if |t.line| > MAX_BYTES then w.(dropped := w.dropped + 1, refused := w.refused + 1)
    else PushBack(Evict(w, |t.line|), t)
  }

  /** What Enqueue returns. */
  predicate EnqueueResult(w: Writer, t: Task) {
    t.maxLines <= 0 || t.line == [] || (!w.stopping && |t.line| <= MAX_BYTES && Evict(w, |t.line|) == w)
  }

  /** How the file system answers: whether the file opens for appending, for reading, and can be replaced. */
  datatype Io = Io(opens: bool, readable: bool, renames: bool)

  function Persist(w: Writer, t: Task, io: Io): Writer {
    if !io.opens then w else
    var w := w.(file := w.file + [t.line]);
    if t.maxLines <= 0 then w
    else if w.writeCount + 1 < TRUNCATE_INTERVAL then w.(writeCount := w.writeCount + 1)
    else
      var w := w.(writeCount := 0);
      if !io.readable || |w.file| <= t.maxLines || !io.renames then w else w.(file := w.file[|w.file| - t.maxLines..])
  }

  /** The worker: waits for an entry or for the end, writes an entry, reports that it is done. */
  function WorkerStep(w: Writer, io: Io): Writer {
    match w.worker
    case Waiting =>
      if w.pending != [] then PopFront(w, Taken).(worker := Writing(w.pending[0]))
      else if w.stopping then w.(worker := Exited)
      else w
    case Writing(task) => Persist(w, task, io).(worker := Waiting, persisted := w.persisted + [task], reached := w.reached + [io.opens])
    case Exited => w
  }

  datatype Event = Enqueues(task: Task) | WorkerMoves(io: Io) | Stops

  function Step(w: Writer, e: Event): Writer {
    match e
    case Enqueues(task) => EnqueueStep(w, task)
    case WorkerMoves(io) => WorkerStep(w, io)
    case Stops => w.(stopping := true)
  }

  function Run(w: Writer, events: seq<Event>): Writer
    decreases |events|
  {
    if events == [] then w else Step(Run(w, events[..|events| - 1]), events[|events| - 1])
  }

  // ---------------------------------------------------------------------------------------------
  // The object

  class AsyncContextWriter {
    var pending: seq<Task>
    var pendingBytes: nat
    var dropped: nat
    var stopping: bool
    var worker: Worker
    var file: seq<string>
    var writeCount: nat
    ghost var accepted: seq<Task>
    ghost var fates: seq<Fate>
    ghost var persisted: seq<Task>
    ghost var reached: seq<bool>
    ghost var refused: nat

    ghost function View(): Writer
      reads this
    {
      Writer(pending, pendingBytes, dropped, stopping, worker, file, writeCount, accepted, fates, persisted, reached, refused)
    }

    constructor ()
      ensures View() == Start() && Inv(View())
    {
      hide Inv;
      StartOk();
      pending, pendingBytes, dropped, stopping, worker, file, writeCount := [], 0, 0, false, Waiting, [], 0;
      accepted, fates, persisted, reached, refused := [], [], [], [], 0;
    }

    /** False when the entry was refused, and also when older ones were evicted for it. */
    method Enqueue(line: string, maxLines: int) returns (ok: bool)
      requires Inv(View())
      modifies this
      ensures View() == EnqueueStep(old(View()), Task(line, maxLines)) && Inv(View())
      ensures ok == EnqueueResult(old(View()), Task(line, maxLines))
      ensures maxLines <= 0 || line == [] ==> ok && View() == old(View())
      ensures maxLines > 0 && line != [] && old(stopping) ==> !ok && View() == old(View())
      ensures maxLines > 0 && line != [] && !old(stopping) && |line| > 4194304 ==>
                !ok && pending == old(pending) && dropped == old(dropped) + 1
      ensures maxLines > 0 && line != [] && !old(stopping) && |line| <= 4194304 ==>
                pending != [] && pending[|pending| - 1] == Task(line, maxLines) && (ok <==> dropped == old(dropped))
    {
      hide Inv, Evict, QueueOk, Kept, Evictions;
      EnqueueKeeps(View(), Task(line, maxLines));
      if maxLines <= 0 || line == [] {
        return true;
      }
      if stopping {
        return false;
      }
      if |line| > MAX_BYTES {
        dropped := dropped + 1;
        refused := refused + 1;
        return false;
      }
      InvQueue(View());
      var lost := MakeRoom(|line|);
      pendingBytes := pendingBytes + |line|;
      pending := pending + [Task(line, maxLines)];
      accepted := accepted + [Task(line, maxLines)];
      return !lost;
    }

    /** Evicts from the front while there are too many entries or bytes. */
    method MakeRoom(size: nat) returns (lost: bool)
      requires QueueOk(View()) && size <= MAX_BYTES
      modifies this
      ensures View() == Evict(old(View()), size)
      ensures lost <==> Evict(old(View()), size) != old(View())
      ensures dropped >= old(dropped) && (lost <==> dropped > old(dropped))
    {
      hide Evict, QueueOk, Kept, Evictions;
      lost := false;
      while pending != [] && (|pending| >= MAX_ENTRIES || pendingBytes > MAX_BYTES - size)
        invariant Evict(View(), size) == Evict(old(View()), size) && QueueOk(View())
        invariant if lost then |pending| < |old(pending)| && dropped > old(dropped) else View() == old(View())
        decreases |pending|
      {
        PopKeeps(View(), Evicted);
        EvictUnfolds(View(), size);
        QueueSame(PopFront(View(), Evicted), PopFront(View(), Evicted).(dropped := dropped + 1));
        pendingBytes := pendingBytes - |pending[0].line|;
        pending := pending[1..];
        dropped := dropped + 1;
        fates := fates + [Evicted];
        lost := true;
      }
      EvictUnfolds(View(), size);
    }

    /** The worker takes the front entry, or learns that it may end. */
    method Take()
      requires Inv(View()) && worker.Waiting?
      modifies this
      ensures forall io :: View() == WorkerStep(old(View()), io)
      ensures Inv(View())
    {
      hide Inv, QueueOk, Kept, Evictions, Persist;
      WorkerKeeps(View(), Io(false, false, false));
      InvQueue(View());
      if pending == [] {
        if stopping {
          worker := Exited;
        }
        return;
      }
      PopKeeps(View(), Taken);
      worker := Writing(pending[0]);
      pendingBytes := pendingBytes - |pending[0].line|;
      pending := pending[1..];
      fates := fates + [Taken];
    }

    /** The worker writes the entry it took. */
    method WriteOut(io: Io)
      requires Inv(View()) && worker.Writing?
      modifies this
      ensures View() == WorkerStep(old(View()), io) && Inv(View())
    {
      hide Inv;
      WorkerKeeps(View(), io);
      hide Persist;
      var task := worker.task;
      Append(task, io);
      worker := Waiting;
      persisted := persisted + [task];
      reached := reached + [io.opens];
    }

    method Append(task: Task, io: Io)
      modifies this
      ensures View() == Persist(old(View()), task, io)
      ensures var all := old(file) + [task.line];
              file == if !io.opens then old(file)
                      else if task.maxLines > 0 && old(writeCount) + 1 >= 100 && io.readable && io.renames && |all| > task.maxLines
                      then all[|all| - task.maxLines..] else all
    {
      if io.opens {
        file := file + [task.line];
        if task.maxLines > 0 {
          writeCount := writeCount + 1;
          if writeCount >= TRUNCATE_INTERVAL {
            writeCount := 0;
            if io.readable && |file| > task.maxLines && io.renames {
              file := file[|file| - task.maxLines..];
            }
          }
        }
      }
    }

    method Stop()
      requires Inv(View())
      modifies this
      ensures View() == old(View()).(stopping := true) && Inv(View())
    {
      hide Inv, Kept, Evictions, Total;
      StepKeeps(View(), Stops);
      stopping := true;
    }
  }

  // ---------------------------------------------------------------------------------------------
  // The invariant

  /** The accepted entries that were taken, in order. */
  function Kept(accepted: seq<Task>, fates: seq<Fate>): seq<Task>
    requires |fates| <= |accepted|
    decreases |fates|
  {
    if fates == [] then []
    else
      var n := |fates| - 1;
      Kept(accepted, fates[..n]) + (if fates[n].Taken? then [accepted[n]] else [])
  }

  function Evictions(fates: seq<Fate>): (n: nat)
    ensures n <= |fates|
    decreases |fates|
  {
    if fates == [] then 0
    else Evictions(fates[..|fates| - 1]) + (if fates[|fates| - 1].Evicted? then 1 else 0)
  }

  function InFlight(w: Worker): seq<Task> {
    if w.Writing? then [w.task] else []
  }

  /** The queue is the newest part of what was accepted, with its exact size and within its bounds. */
  predicate QueueOk(w: Writer) {
    && |w.fates| <= |w.accepted| && w.pending == w.accepted[|w.fates|..]
    && w.pendingBytes == Total(w.pending) && w.pendingBytes <= MAX_BYTES && |w.pending| <= MAX_ENTRIES
  }

  predicate HistoryOk(w: Writer) {
    && |w.fates| <= |w.accepted| && w.persisted + InFlight(w.worker) == Kept(w.accepted, w.fates)
    && w.dropped == w.refused + Evictions(w.fates)
    && (w.worker.Exited? ==> w.stopping && w.pending == [])
  }

  /** The lines of the entries whose write could open the file, in order. */
  function Reached(persisted: seq<Task>, reached: seq<bool>): (lines: seq<string>)
    requires |reached| == |persisted|
    decreases |persisted|
  {
    if persisted == [] then []
    else
      var n := |persisted| - 1;
      Reached(persisted[..n], reached[..n]) + (if reached[n] then [persisted[n].line] else [])
  }

  /** The file holds the newest of the lines that reached it. */
  predicate FileOk(w: Writer) {
    && w.writeCount < TRUNCATE_INTERVAL && |w.reached| == |w.persisted|
    && var lines := Reached(w.persisted, w.reached);
       |w.file| <= |lines| && w.file == lines[|lines| - |w.file|..]
  }

  predicate Inv(w: Writer) {
    QueueOk(w) && HistoryOk(w) && FileOk(w)
  }

  lemma {:induction false} TotalSnoc(tasks: seq<Task>, t: Task)
    ensures Total(tasks + [t]) == Total(tasks) + |t.line|
    decreases |tasks|
  {
    if tasks == [] {
      assert tasks + [t] == [t] && [t][1..] == [];
    } else {
      TotalSnoc(tasks[1..], t);
      assert (tasks + [t])[1..] == tasks[1..] + [t];
    }
  }

  lemma {:induction false} KeptExtends(accepted: seq<Task>, t: Task, fates: seq<Fate>)
    requires |fates| <= |accepted|
    ensures Kept(accepted + [t], fates) == Kept(accepted, fates)
    decreases |fates|
  {
    if fates != [] {
      KeptExtends(accepted, t, fates[..|fates| - 1]);
    }
  }

  /** Taking the front off keeps the queue in order; the fates tell what became of it. */
  lemma PopKeeps(w: Writer, fate: Fate)
    requires QueueOk(w) && w.pending != []
    ensures var w' := PopFront(w, fate);
            && QueueOk(w') && w.pendingBytes >= |w.pending[0].line| && w.pending[0] == w.accepted[|w.fates|]
            && Kept(w.accepted, w'.fates) == Kept(w.accepted, w.fates) + (if fate.Taken? then [w.pending[0]] else [])
            && Evictions(w'.fates) == Evictions(w.fates) + (if fate.Evicted? then 1 else 0)
  {
    assert (w.fates + [fate])[..|w.fates|] == w.fates;
    assert w.accepted[|w.fates|..][1..] == w.accepted[|w.fates| + 1..];
  }

  lemma InvQueue(w: Writer)
    requires Inv(w)
    ensures QueueOk(w)
  {
  }

  lemma QueueSame(w: Writer, w': Writer)
    requires w'.pending == w.pending && w'.pendingBytes == w.pendingBytes && w'.accepted == w.accepted && w'.fates == w.fates
    ensures QueueOk(w) ==> QueueOk(w')
  {
  }

  lemma EvictUnfolds(w: Writer, size: nat)
    ensures Evict(w, size) == if w.pending != [] && Crowded(w, size) then Evict(PopFront(w, Evicted).(dropped := w.dropped + 1), size) else w
  {
  }

  lemma {:induction false} EvictKeeps(w: Writer, size: nat)
    requires Inv(w) && size <= MAX_BYTES && !w.worker.Exited?
    ensures var w' := Evict(w, size);
            && Inv(w') && |w'.pending| < MAX_ENTRIES && w'.pendingBytes + size <= MAX_BYTES
            && w' == w.(pending := w'.pending, pendingBytes := w'.pendingBytes, dropped := w'.dropped, fates := w'.fates)
    decreases |w.pending|
  {
    if w.pending != [] && Crowded(w, size) {
      PopKeeps(w, Evicted);
      EvictKeeps(PopFront(w, Evicted).(dropped := w.dropped + 1), size);
    }
  }

  lemma EnqueueKeeps(w: Writer, t: Task)
    requires Inv(w)
    ensures Inv(EnqueueStep(w, t))
  {
    hide Evict, Kept, Evictions, FileOk, Total;
    if !w.stopping && |t.line| <= MAX_BYTES {
      EvictKeeps(w, |t.line|);
      var w' := Evict(w, |t.line|);
      TotalSnoc(w'.pending, t);
      KeptExtends(w'.accepted, t, w'.fates);
      FileSame(w, PushBack(w', t));
    }
    FileSame(w, w.(dropped := w.dropped + 1, refused := w.refused + 1));
  }

  lemma FileSame(w: Writer, w': Writer)
    requires w'.file == w.file && w'.writeCount == w.writeCount && w'.persisted == w.persisted && w'.reached == w.reached
    ensures FileOk(w) ==> FileOk(w')
  {
  }

  lemma PersistFrame(w: Writer, t: Task, io: Io)
    ensures var w' := Persist(w, t, io); w' == w.(file := w'.file, writeCount := w'.writeCount)
  {
  }

  lemma WriteKeeps(w: Writer, t: Task, io: Io)
    requires FileOk(w)
    ensures FileOk(Persist(w, t, io).(worker := Waiting, persisted := w.persisted + [t], reached := w.reached + [io.opens]))
  {
    var n := |w.persisted|;
    assert (w.persisted + [t])[..n] == w.persisted && (w.reached + [io.opens])[..n] == w.reached;
    hide Reached;
    ReachedSnoc(w.persisted, t, w.reached, io.opens);
  }

  lemma ReachedSnoc(persisted: seq<Task>, t: Task, reached: seq<bool>, opens: bool)
    requires |reached| == |persisted|
    ensures Reached(persisted + [t], reached + [opens]) == Reached(persisted, reached) + (if opens then [t.line] else [])
  {
    var n := |persisted|;
    assert (persisted + [t])[..n] == persisted && (reached + [opens])[..n] == reached;
  }

  lemma WorkerKeeps(w: Writer, io: Io)
    requires Inv(w)
    ensures Inv(WorkerStep(w, io))
  {
    hide Kept, Evictions, FileOk, Total, Persist;
    match w.worker
    case Waiting =>
      if w.pending != [] {
        PopKeeps(w, Taken);
        FileSame(w, WorkerStep(w, io));
      } else {
        FileSame(w, w.(worker := Exited));
      }
    case Writing(task) =>
      PersistFrame(w, task, io);
      WriteKeeps(w, task, io);
    case Exited =>
  }

  lemma StepKeeps(w: Writer, e: Event)
    requires Inv(w)
    ensures Inv(Step(w, e))
  {
    hide EnqueueStep, WorkerStep, Kept, Evictions, Total;
    match e
    case Enqueues(task) => EnqueueKeeps(w, task);
    case WorkerMoves(io) => WorkerKeeps(w, io);
    case Stops =>
  }

  lemma {:induction false} RunKeeps(w: Writer, events: seq<Event>)
    requires Inv(w)
    ensures Inv(Run(w, events))
    decreases |events|
  {
    hide Inv, Step;
    if events != [] {
      RunKeeps(w, events[..|events| - 1]);
      StepKeeps(Run(w, events[..|events| - 1]), events[|events| - 1]);
    }
  }

  lemma StartOk()
    ensures Inv(Start())
  {
    hide QueueOk, HistoryOk, FileOk;
    StartQueue();
    StartHistory();
    StartFile();
  }

  lemma StartQueue()
    ensures QueueOk(Start())
  {
    var none: seq<Task> := [];
    assert Total(none) == 0;
    hide Total;
  }

  lemma StartHistory()
    ensures HistoryOk(Start())
  {
    var none: seq<Task> := [];
    assert Kept(none, []) == [] && Evictions([]) == 0;
    hide Kept, Evictions;
  }

  lemma StartFile()
    ensures FileOk(Start())
  {
    assert Reached([], []) == [];
    hide Reached;
  }

  lemma ReachableOk(events: seq<Event>)
    ensures Inv(Run(Start(), events))
  {
    hide Inv, Run, Start;
    StartOk();
    RunKeeps(Start(), events);
  }

  // ---------------------------------------------------------------------------------------------
  // The claims

  /** On every interleaving the size is exact, the bounds hold, and no entry is counted twice or lost from the books. */
  lemma BoundedAndConserved(events: seq<Event>)
    ensures var w := Run(Start(), events);
            && w.pendingBytes == Total(w.pending) <= 4194304 && |w.pending| <= 1024
            && |w.accepted| == |w.persisted| + |InFlight(w.worker)| + |w.pending| + Evictions(w.fates)
            && w.dropped == w.refused + Evictions(w.fates)
  {
    hide Run, Step, Start;
    ReachableOk(events);
    KeptCount(Run(Start(), events).accepted, Run(Start(), events).fates);
  }

  lemma {:induction false} KeptCount(accepted: seq<Task>, fates: seq<Fate>)
    requires |fates| <= |accepted|
    ensures |Kept(accepted, fates)| + Evictions(fates) == |fates|
    decreases |fates|
  {
    if fates != [] {
      KeptCount(accepted, fates[..|fates| - 1]);
    }
  }

  /**
    Entries are written in the order they were accepted, and the file holds the newest lines of those among them whose
    write could open the file.
   */
  lemma OrderKept(events: seq<Event>)
    ensures var w := Run(Start(), events);
            && |w.fates| <= |w.accepted| && w.persisted <= Kept(w.accepted, w.fates) && w.pending == w.accepted[|w.fates|..]
            && |w.reached| == |w.persisted|
            && var lines := Reached(w.persisted, w.reached); |w.file| <= |lines| && w.file == lines[|lines| - |w.file|..]
  {
    hide Run, Step, Start;
    ReachableOk(events);
  }

  /** Eviction takes the fewest of the oldest entries that make room. */
  lemma {:induction false} EvictsFewest(w: Writer, size: nat) returns (k: nat)
    ensures k <= |w.pending| && Evict(w, size).pending == w.pending[k..] && Evict(w, size).dropped == w.dropped + k
    ensures w.pending[k..] == [] || (|w.pending| - k < 1024 && w.pendingBytes - Total(w.pending[..k]) <= 4194304 - size)
    ensures k > 0 ==> |w.pending| - (k - 1) >= 1024 || w.pendingBytes - Total(w.pending[..k - 1]) > 4194304 - size
    ensures Evict(w, size).pendingBytes == w.pendingBytes - Total(w.pending[..k])
    decreases |w.pending|
  {
    if w.pending != [] && Crowded(w, size) {
      var w' := PopFront(w, Evicted).(dropped := w.dropped + 1);
      var j := EvictsFewest(w', size);
      k := j + 1;
      assert w.pending[1..][j..] == w.pending[k..];
      assert w.pending[..k][1..] == w'.pending[..j];
      if j > 0 {
        assert w.pending[..j][1..] == w'.pending[..j - 1];
      }
    } else {
      k := 0;
    }
  }

  /** An entry that is not refused is queued last, even when Enqueue returns false because older ones were evicted. */
  lemma NewestIsQueued(w: Writer, t: Task)
    requires Inv(w) && t.maxLines > 0 && t.line != [] && !w.stopping && |t.line| <= MAX_BYTES
    ensures var w' := EnqueueStep(w, t);
            && w'.accepted == w.accepted + [t] && w'.pending != [] && w'.pending[|w'.pending| - 1] == t
            && (EnqueueResult(w, t) <==> w'.fates == w.fates)
  {
    EvictKeeps(w, |t.line|);
    EvictedOrSame(w, |t.line|);
  }

  lemma EvictedOrSame(w: Writer, size: nat)
    ensures Evict(w, size) == w || |Evict(w, size).fates| > |w.fates|
    decreases |w.pending|
  {
  }

  /** When the writer is idle, every accepted entry was written or evicted. */
  lemma IdleMeansDone(events: seq<Event>)
    requires var w := Run(Start(), events); w.pending == [] && !w.worker.Writing?
    ensures var w := Run(Start(), events); |w.fates| == |w.accepted| && w.persisted == Kept(w.accepted, w.fates)
  {
    hide Run, Step, Start;
    ReachableOk(events);
  }

  /** The worker ends only when it was told to and everything is written; nothing is accepted afterwards. */
  lemma ExitsDrained(events: seq<Event>, e: Event)
    requires Run(Start(), events).worker.Exited?
    ensures var w := Run(Start(), events);
            && w.stopping && w.pending == [] && |w.fates| == |w.accepted| && w.persisted == Kept(w.accepted, w.fates)
            && Step(w, e).accepted == w.accepted && Step(w, e).worker.Exited?
  {
    hide Run, Start, Kept, Evictions, Total;
    ReachableOk(events);
  }

  /** Moves of the worker, each with its own answers of the file system. */
  function Moves(w: Writer, ios: seq<Io>): Writer
    decreases |ios|
  {
    if ios == [] then w else Moves(WorkerStep(w, ios[0]), ios[1..])
  }

  lemma {:induction false} ExitedStays(w: Writer, ios: seq<Io>)
    requires w.worker.Exited?
    ensures Moves(w, ios) == w
    decreases |ios|
  {
    if ios != [] {
      ExitedStays(w, ios[1..]);
    }
  }

  /** How many moves the worker needs to write everything and end. */
  function MovesLeft(w: Writer): nat {
    if w.worker.Exited? then 0 else 2 * |w.pending| + |InFlight(w.worker)| + 1
  }

  /**
    Once stopped, whatever the worker is doing and however the file system answers each time: after two moves for
    each pending entry, one for an entry in flight and one more, it has written them all, in order, and has ended.
   */
  lemma {:induction false} StoppedDrains(w: Writer, ios: seq<Io>)
    requires Inv(w) && w.stopping && |ios| >= MovesLeft(w)
    ensures var w' := Moves(w, ios);
            && w'.worker.Exited? && w'.pending == [] && w'.dropped == w.dropped
            && w'.persisted == w.persisted + InFlight(w.worker) + w.pending
    decreases |ios|
  {
    hide Inv;
    ExitedEmpty(w);
    if w.worker.Exited? {
      ExitedStays(w, ios);
    } else {
      var w1 := WorkerStep(w, ios[0]);
      WorkerKeeps(w, ios[0]);
      PersistBooks(w, ios[0]);
      StoppedDrains(w1, ios[1..]);
      assert w1.persisted + InFlight(w1.worker) + w1.pending == w.persisted + InFlight(w.worker) + w.pending;
    }
  }

  lemma ExitedEmpty(w: Writer)
    requires Inv(w)
    ensures w.worker.Exited? ==> w.pending == []
  {
    hide Kept, Evictions, Total;
  }

  lemma PersistBooks(w: Writer, io: Io)
    ensures w.worker.Writing? ==>
              var p := Persist(w, w.worker.task, io);
              p.pending == w.pending && p.dropped == w.dropped && p.stopping == w.stopping
  {
  }

  // ---------------------------------------------------------------------------------------------
  // The size of the file

  /** Entries whose limit is at least so many lines. */
  predicate Roomy(e: Event, least: nat) {
    e.Enqueues? ==> e.task.maxLines <= 0 || e.task.maxLines >= least
  }

  predicate HoldsNewest(w: Writer, least: nat) {
    && (forall i :: 0 <= i < |w.pending| ==> w.pending[i].maxLines >= least)
    && (w.worker.Writing? ==> w.worker.task.maxLines >= least)
    && |w.reached| == |w.persisted| && (|w.file| >= least || |w.file| >= |Reached(w.persisted, w.reached)|)
  }

  lemma {:induction false} EvictHoldsNewest(w: Writer, size: nat, least: nat)
    requires HoldsNewest(w, least)
    ensures HoldsNewest(Evict(w, size), least)
    decreases |w.pending|
  {
    hide Reached;
    if w.pending != [] && Crowded(w, size) {
      EvictHoldsNewest(PopFront(w, Evicted).(dropped := w.dropped + 1), size, least);
    }
  }

  lemma StepHoldsNewest(w: Writer, e: Event, least: nat)
    requires HoldsNewest(w, least) && Roomy(e, least)
    ensures HoldsNewest(Step(w, e), least)
  {
    hide Evict, Reached;
    if e.Enqueues? {
      EvictHoldsNewest(w, |e.task.line|, least);
    } else if e.WorkerMoves? && w.worker.Writing? {
      ReachedSnoc(w.persisted, w.worker.task, w.reached, e.io.opens);
    }
  }

  lemma {:induction false} RunHoldsNewest(events: seq<Event>, least: nat)
    requires forall i :: 0 <= i < |events| ==> Roomy(events[i], least)
    ensures HoldsNewest(Run(Start(), events), least)
    decreases |events|
  {
    hide Step, HoldsNewest, Roomy;
    if events == [] {
      StartHoldsNewest(least);
    } else {
      RunHoldsNewest(events[..|events| - 1], least);
      StepHoldsNewest(Run(Start(), events[..|events| - 1]), events[|events| - 1], least);
    }
  }

  lemma StartHoldsNewest(least: nat)
    ensures HoldsNewest(Start(), least)
  {
  }

  /**
    On every run, however the file system answers: of the lines that reached it the file holds the newest, and at least
    as many as the smallest limit of any entry.
   */
  lemma NewestAreInFile(events: seq<Event>, least: nat)
    requires forall i :: 0 <= i < |events| ==> Roomy(events[i], least)
    ensures var w := Run(Start(), events);
            && |w.reached| == |w.persisted|
            && var lines := Reached(w.persisted, w.reached);
            && |w.file| <= |lines| && w.file == lines[|lines| - |w.file|..] && (|w.file| >= least || w.file == lines)
  {
    hide Run, Start, Roomy;
    RunHoldsNewest(events, least);
    ReachableOk(events);
  }

  /** Entries with one limit, and files that work. */
  predicate Steady(e: Event, limit: nat) {
    (e.Enqueues? ==> e.task.maxLines == limit) && (e.WorkerMoves? ==> e.io == Io(true, true, true))
  }

  /** How many lines the file holds after n writes: it is cut down to the limit at every hundredth. */
  function FileLength(n: nat, limit: nat): nat {
    var cut := n - n % 100;
    (if cut <= limit then cut else limit) + n % 100
  }

  predicate SteadyWriter(w: Writer, limit: nat) {
    && (forall i :: 0 <= i < |w.pending| ==> w.pending[i].maxLines == limit)
    && (w.worker.Writing? ==> w.worker.task.maxLines == limit)
    && |w.reached| == |w.persisted| && (forall i :: 0 <= i < |w.reached| ==> w.reached[i])
    && w.writeCount == |w.persisted| % 100 && |w.file| == FileLength(|w.persisted|, limit)
  }

  lemma {:induction false} EvictSteady(w: Writer, size: nat, limit: nat)
    requires SteadyWriter(w, limit)
    ensures SteadyWriter(Evict(w, size), limit)
    decreases |w.pending|
  {
    if w.pending != [] && Crowded(w, size) {
      EvictSteady(PopFront(w, Evicted).(dropped := w.dropped + 1), size, limit);
    }
  }

  lemma StepSteady(w: Writer, e: Event, limit: nat)
    requires SteadyWriter(w, limit) && Steady(e, limit) && limit > 0
    ensures SteadyWriter(Step(w, e), limit)
  {
    hide Evict;
    if e.Enqueues? {
      EvictSteady(w, |e.task.line|, limit);
    } else {
      NextLength(|w.persisted|, limit);
    }
  }

  lemma NextLength(n: nat, limit: nat)
    ensures n % 100 < 99 ==> (n + 1) % 100 == n % 100 + 1 && FileLength(n + 1, limit) == FileLength(n, limit) + 1
    ensures n % 100 == 99 ==> (n + 1) % 100 == 0
    ensures n % 100 == 99 ==> FileLength(n + 1, limit) == if FileLength(n, limit) + 1 <= limit then FileLength(n, limit) + 1 else limit
  {
    if n % 100 == 99 {
      assert (n + 1) % 100 == 0;
    } else {
      assert (n + 1) % 100 == n % 100 + 1;
    }
  }

  lemma {:induction false} RunSteady(events: seq<Event>, limit: nat)
    requires limit > 0 && forall i :: 0 <= i < |events| ==> Steady(events[i], limit)
    ensures SteadyWriter(Run(Start(), events), limit)
    decreases |events|
  {
    hide Step, SteadyWriter, Steady;
    if events == [] {
      StartSteady(limit);
    } else {
      RunSteady(events[..|events| - 1], limit);
      StepSteady(Run(Start(), events[..|events| - 1]), events[|events| - 1], limit);
    }
  }

  lemma StartSteady(limit: nat)
    ensures SteadyWriter(Start(), limit)
  {
  }

  lemma {:induction false} AllReached(persisted: seq<Task>, reached: seq<bool>)
    requires |reached| == |persisted| && forall i :: 0 <= i < |reached| ==> reached[i]
    ensures var lines := Reached(persisted, reached);
            |lines| == |persisted| && forall i :: 0 <= i < |persisted| ==> lines[i] == persisted[i].line
    decreases |persisted|
  {
    if persisted != [] {
      AllReached(persisted[..|persisted| - 1], reached[..|persisted| - 1]);
    }
  }

  /**
    On every run with one limit and working files: the file holds the newest lines of the entries written, all of them
    while they are within the limit and never fewer than the limit afterwards, and stays below the limit plus a hundred;
    how many exactly depends only on how many were written.
   */
  lemma FileBounded(events: seq<Event>, limit: nat)
    requires limit > 0 && forall i :: 0 <= i < |events| ==> Steady(events[i], limit)
    ensures var w := Run(Start(), events);
            var n := |w.persisted|;
            && |w.file| == FileLength(n, limit) <= n && |w.file| < limit + 100 && (|w.file| == n || |w.file| >= limit)
            && forall i :: 0 <= i < |w.file| ==> w.file[i] == w.persisted[n - |w.file| + i].line
  {
    hide Run, Start, Steady;
    RunSteady(events, limit);
    ReachableOk(events);
    var w := Run(Start(), events);
    AllReached(w.persisted, w.reached);
  }
}
