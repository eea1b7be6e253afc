/**
  The voice-session protocol of the Fcitx addon (src/addon/core, src/addon/dbus, src/addon/input): one
  object, driven by keys, focus, timers, asynchronous replies and daemon signals in any order. Every
  handler is a function from the state of the engine to its next state.
 */
module VoiceSession {
  import opened Wrappers
  import opened StatusPollGate

  /** An input context, by number; one that was destroyed must not be touched again. */
  type Context = nat

  datatype Phase = PendingStart | Recording | Inferring | Postprocessing

  /** A hotkey from the configuration; None is the default-constructed key. */
  type Key = Option<nat>

  datatype Session = Session(
    phase: Phase,
    ic: Context,
    trigger: Key,
    commandMode: bool,
    triggerReleased: bool,
    rawPrev: bool,
    stopOnRelease: bool)

  datatype Status = StatusEmpty | StatusIdle | StatusRecording | StatusInferring | StatusPostprocessing | StatusOther

  datatype TriggerMode = Hold | Tap | Both

  datatype Role = RoleNone | RoleMenu | RoleTrigger | RoleCommand

  /** When a status request was issued: in which session, after how many status signals and pending starts. */
  datatype Stamp = Stamp(epoch: nat, signals: nat, starts: nat)

  /** The synchronous calls of a palette entry: none, or one that succeeds or fails last. */
  datatype PaletteCall = NoCall | CallSucceeds | CallFails

  /** What the handlers ask of the rest of the system at the time of an event. */
  datatype Env = Env(
    now: nat,                // the monotonic clock, in milliseconds
    bus: bool,               // the D-Bus addon is there
    sends: bool,             // an asynchronous call can be sent
    commandReady: bool,      // the command scene is enabled and has a provider
    hasSelection: bool,      // there is selected text to apply a command to
    sceneRawPrev: bool,      // raw_prev of the active scene
    keepsContext: bool,      // some scene asks for context lines
    resultCloses: bool,      // an open result menu closes on the key
    resultConsumes: bool,    // an open result menu consumes the key
    paletteCloses: bool,     // and the same for the command palette
    paletteConsumes: bool,
    paletteCall: PaletteCall,  // what a palette entry that is chosen asks of the daemon
    paletteStatus: Option<Status>)  // and the status it learns, if it asks for that

  const TRIGGER_DEBOUNCE: nat := 80
  const TAP_MAX_HOLD: nat := 200
  const IDLE_RECOVERY: nat := 5000
  const FAILURE_COOLDOWN: nat := 1500

  /** The contexts the engine stores. */
  datatype Contexts = Contexts(
    status: Option<Context>,
    lastActive: Option<Context>,
    palette: Option<Context>,
    result: Option<Context>,
    buffer: Option<Context>,
    live: set<Context>,           // auxiliary: the contexts not yet destroyed
    usedDead: bool)               // auxiliary: a destroyed context was touched
  {
    predicate Alive(ic: Option<Context>) {
      ic.Some? ==> ic.value in live
    }

    /** Writes to the panel of a context. */
    function Touch(ic: Option<Context>): Contexts {
      this.(usedDead := usedDead || !Alive(ic))
    }

    function HidePalette(): Contexts {
      Touch(palette).(palette := None)
    }

    function HideResult(): Contexts {
      Touch(result).(result := None)
    }

    function DismissMenus(): Contexts {
      HidePalette().HideResult()
    }

    /** updateVoicePresentation and clearVoicePresentation. */
    function Present(ic: Option<Context>): Contexts {
      if ic.None? then this else DismissMenus().Touch(ic)
    }

    /** Remembers a context, and clears another one that showed the status so far. */
    function MoveTo(ic: Context): Contexts {
      var c := this.(lastActive := Some(ic));
      if c.status.Some? && c.status.value != ic then c.Present(c.status) else c
    }

    /** Makes a context the one that shows the status. */
    function ShowStatus(ic: Context): Contexts {
      this.(status := Some(ic)).Present(Some(ic))
    }
  }

  /**
    The polling of the daemon: the gate, the request whose callback is held in the slot, the timer. A callback
    dropped with its slot never comes; the model lets it come all the same, so it keeps every ticket sent.
   */
  datatype Calls = Calls(
    slot: Option<nat>,
    inFlight: map<nat, Ticket>,
    timer: bool,
    issued: map<nat, Stamp>,      // auxiliary: when each request was issued
    stamp: Stamp)                 // auxiliary: the stamp of a request issued now
  {
    function NewEpoch(): Calls {
      this.(stamp := stamp.(epoch := stamp.epoch + 1))
    }

    function NewStart(): Calls {
      this.(stamp := stamp.(starts := stamp.starts + 1))
    }

    function NewSignal(): Calls {
      this.(stamp := stamp.(signals := stamp.signals + 1))
    }

    function Stopped(): Calls {
      this.(timer := false, slot := None)
    }

    function Sent(t: Ticket): Calls {
      this.(slot := Some(t.id), inFlight := inFlight[t.id := t], issued := issued[t.id := stamp])
    }
  }

  datatype Polling = Polling(gate: Gate, calls: Calls) {
    function Invalidated(): Polling {
      this.(gate := gate.Invalidated())
    }

    function Stopped(): Polling {
      Polling(gate.Cancelled(), calls.Stopped())
    }

    function NewEpoch(): Polling {
      this.(calls := calls.NewEpoch())
    }

    function NewStart(): Polling {
      this.(calls := calls.NewStart())
    }

    function NewSignal(): Polling {
      this.(calls := calls.NewSignal())
    }

    /** A request was sent. */
    function Requested(): Polling {
      var g := gate.Begun();
      Polling(g, calls.Sent(Ticket(g.requestId, g.generation)))
    }

    /** A request could not be sent: there is no slot, and the gate is cancelled. */
    function Unsent(): Polling {
      Polling(gate.Begun().Cancelled(), calls.(slot := None))
    }

    /** The callback of request id was invoked; it takes the slot along if its request is the pending one. */
    function Replied(id: nat): Polling
      requires id in calls.inFlight
    {
      var t := calls.inFlight[id];
      Polling(gate.Completed(t), calls.(inFlight := calls.inFlight - {id}, slot := if gate.IsActive(t) then None else calls.slot))
    }

    function WithTimer(on: bool): Polling {
      this.(calls := calls.(timer := on))
    }
  }

  /** What is held down, and when the last keys came. */
  datatype Keys = Keys(
    heldSym: Option<nat>,
    heldRole: Role,
    heldPressTime: nat,
    chordInterrupted: bool,
    lastTriggerTime: nat,
    pendingRelease: Option<nat>)

  /** What is known of the daemon. */
  datatype Daemon = Daemon(lastStatus: Status, polledIdleSince: Option<nat>, blockedUntil: nat)

  datatype Engine = Engine(
    session: Option<Session>,
    ctx: Contexts,
    poll: Polling,
    stopTimer: bool,
    keys: Keys,
    daemon: Daemon,
    triggerMode: TriggerMode,
    notYetBusy: bool)             // auxiliary: the session was not busy since its last pending start

  function New(mode: TriggerMode): Engine {
    Engine(None, Contexts(None, None, None, None, None, {}, false), Polling(Gate(0, 0, false), Calls(None, map[], false, map[], Stamp(0, 0, 0))),
           false, Keys(None, RoleNone, 0, false, 0, None), Daemon(StatusEmpty, None, 0), mode, false)
  }

  // ---------------------------------------------------------------------------------------------
  // Small helpers

  function ResolveInputContext(v: Engine, fallback: Option<Context>): Option<Context> {
    if v.session.Some? then Some(v.session.value.ic)
    else if v.ctx.status.Some? then v.ctx.status
    else if fallback.Some? then fallback
    else v.ctx.lastActive
  }

  function DismissMenus(v: Engine): Engine {
    v.(ctx := v.ctx.DismissMenus())
  }

  function Present(v: Engine, ic: Option<Context>): Engine {
    v.(ctx := v.ctx.Present(ic))
  }

  function NoteFailure(v: Engine, env: Env): Engine {
    v.(daemon := v.daemon.(blockedUntil := env.now + FAILURE_COOLDOWN))
  }

  function ClearFailure(v: Engine): Engine {
    v.(daemon := v.daemon.(blockedUntil := 0))
  }

  predicate SyncAllowed(v: Engine, env: Env) {
    env.now >= v.daemon.blockedUntil
  }

  predicate CanCall(v: Engine, env: Env) {
    env.bus && SyncAllowed(v, env) && env.sends
  }

  function AfterCall(v: Engine, env: Env): Engine {
    if CanCall(v, env) then v else NoteFailure(v, env)
  }

  function FlushContextBuffer(v: Engine): Engine {
    v.(ctx := v.ctx.(buffer := None))
  }

  function CancelPendingStart(v: Engine): Engine {
    v.(keys := v.keys.(heldRole := RoleNone, heldSym := None))
  }

  function CancelPendingStop(v: Engine): Engine {
    v.(stopTimer := false)
  }

  function ScheduleStop(v: Engine): Engine {
    v.(stopTimer := true)
  }

  function StopStatusSyncIfIdle(v: Engine): Engine {
    if v.session.Some? || v.ctx.status.Some? then v else v.(poll := v.poll.Stopped())
  }

  function EnsureStatusSync(v: Engine): Engine {
    if v.session.None? && v.ctx.status.None? then StopStatusSyncIfIdle(v) else v.(poll := v.poll.WithTimer(true))
  }

  // ---------------------------------------------------------------------------------------------
  // Phases of a session

  /** Makes s the session, shown on its context. */
  function WithSession(v: Engine, s: Session): Engine {
    v.(session := Some(s), ctx := v.ctx.ShowStatus(s.ic), poll := if v.session.None? then v.poll.NewEpoch() else v.poll)
  }

  function EnterPendingStart(v: Engine, ic: Context, trigger: Key, commandMode: bool, env: Env): Engine {
    var v := v.(ctx := v.ctx.MoveTo(ic), poll := v.poll.Invalidated().NewStart(), notYetBusy := true);
    var s := if v.session.Some? then v.session.value else Session(PendingStart, ic, trigger, commandMode, false, true, false);
    EnsureStatusSync(WithSession(v, s.(phase := PendingStart, ic := ic, trigger := trigger, commandMode := commandMode, rawPrev := env.sceneRawPrev)))
  }

  function EnterRecording(v: Engine, ic: Context, trigger: Key, commandMode: bool, env: Env): Engine {
    var stopAfterStart :=
      v.session.Some? && (v.triggerMode.Hold? || v.session.value.stopOnRelease)
      && v.session.value.phase.PendingStart? && v.session.value.triggerReleased;
    var v := ShowRecording(v, ic, trigger, commandMode, env);
    if stopAfterStart then ScheduleStop(v) else v
  }

  function ShowRecording(v: Engine, ic: Context, trigger: Key, commandMode: bool, env: Env): Engine {
    var v := v.(ctx := v.ctx.MoveTo(ic), notYetBusy := v.session.Some? && v.notYetBusy);
    var s := if v.session.Some? then v.session.value else Session(PendingStart, ic, trigger, commandMode, false, env.sceneRawPrev, false);
    EnsureStatusSync(WithSession(v, s.(phase := Recording, ic := ic, trigger := trigger, commandMode := commandMode)))
  }

  function EnterBusy(v: Engine, ic: Context, commandMode: bool, postprocessing: bool, rawPrev: bool): Engine {
    var v := v.(ctx := v.ctx.MoveTo(ic), notYetBusy := false);
    var s := if v.session.Some? then v.session.value else Session(PendingStart, ic, None, commandMode, false, rawPrev, false);
    EnsureStatusSync(WithSession(v, s.(phase := if postprocessing then Postprocessing else Inferring, ic := ic, trigger := None,
                                       commandMode := commandMode, rawPrev := rawPrev)))
  }

  function FinishSession(v: Engine, fallback: Option<Context>): Engine {
    var ic := if v.session.Some? then Some(v.session.value.ic) else if fallback.Some? then fallback else v.ctx.status;
    var poll := v.poll.Invalidated();
    var ctx := if v.ctx.status == ic then v.ctx.(status := None) else v.ctx;
    StopStatusSyncIfIdle(
      v.(session := None, notYetBusy := false, daemon := v.daemon.(polledIdleSince := None), ctx := ctx.Present(ic),
         poll := if v.session.Some? then poll.NewEpoch() else poll))
  }

  function ApplyStatus(v: Engine, status: Status, fallback: Option<Context>, preferCommand: bool, env: Env): Engine {
    if status.StatusIdle? && v.session.None? && v.ctx.status.None? then v else
    var ic := ResolveInputContext(v, fallback);
    if ic.None? then v
    else FollowStatus(v, status, ic.value, if v.session.Some? then v.session.value.commandMode else preferCommand, env)
  }

  /** The session on a context takes the phase that the status stands for, or ends. */
  function FollowStatus(v: Engine, status: Status, ic: Context, commandMode: bool, env: Env): Engine {
    var rawPrev := if v.session.Some? then v.session.value.rawPrev else env.sceneRawPrev;
    match status
    case StatusRecording => EnterRecording(v, ic, if v.session.Some? then v.session.value.trigger else None, commandMode, env)
    case StatusInferring => EnterBusy(v, ic, commandMode, false, rawPrev)
    case StatusPostprocessing => EnterBusy(v, ic, commandMode, true, rawPrev)
    case _ => FinishSession(v, Some(ic))
  }

  // ---------------------------------------------------------------------------------------------
  // Recording

  function ReloadSceneConfig(v: Engine, env: Env): Engine {
    if env.keepsContext then v else v.(ctx := v.ctx.(buffer := None))
  }

  function FinishStop(v: Engine, env: Env): Engine {
    if v.session.None? || !v.session.value.phase.Recording? then v else
    var v := ReloadSceneConfig(v, env);
    AfterCall(EnterBusy(v, v.session.value.ic, v.session.value.commandMode, false, env.sceneRawPrev), env)
  }

  /** Asks the daemon to start; a call that cannot be sent ends the session. */
  function RequestStart(v: Engine, ic: Context, trigger: Key, isCommand: bool, env: Env): Engine {
    var started := EnterPendingStart(v, ic, trigger, isCommand, env);
    var called := AfterCall(FlushContextBuffer(started), env);
    if CanCall(started, env) then called else Present(FinishSession(called, Some(ic)), Some(ic))
  }

  function StartVoiceRecording(v: Engine, ic: Context, trigger: Key, isCommand: bool, env: Env): Engine {
    var v := CancelPendingStop(DismissMenus(v));
    if !isCommand && v.session.None? && v.daemon.lastStatus.StatusRecording? then
      FinishStop(EnterRecording(v, ic, trigger, false, env), env)
    else if !v.daemon.lastStatus.StatusEmpty? && !v.daemon.lastStatus.StatusIdle? then
      ApplyStatus(v, v.daemon.lastStatus, Some(ic), isCommand, env)
    else StartWithFreeDaemon(v, ic, trigger, isCommand, env)
  }

  function StartWithFreeDaemon(v: Engine, ic: Context, trigger: Key, isCommand: bool, env: Env): Engine {
    if isCommand && !env.commandReady then
      Present(FinishSession(v, Some(ic)), Some(ic))
    else if isCommand && !env.hasSelection then
      Present(if v.ctx.status == Some(ic) then FinishSession(v, Some(ic)) else Present(v, Some(ic)), Some(ic))
    else
      RequestStart(v, ic, trigger, isCommand, env)
  }

  /** startVoiceRecording on a press or a tap, and the flags set on the session it leaves behind. */
  function StartAndMark(v: Engine, ic: Context, trigger: Key, isCommand: bool, stopOnRelease: bool, env: Env): Engine {
    var v := StartVoiceRecording(v, ic, trigger, isCommand, env);
    if v.session.None? then v
    else v.(session := Some(v.session.value.(stopOnRelease := stopOnRelease, triggerReleased := !stopOnRelease)))
  }

  /** callCancelOperation, then the end of the session. */
  function CancelSession(v: Engine): Engine
    requires v.session.Some?
  {
    var ic := Some(v.session.value.ic);
    Present(FinishSession(v, ic), ic)
  }

  // ---------------------------------------------------------------------------------------------
  // Keys

  /** A key event, classified against the configured hotkeys. */
  datatype Keystroke = Keystroke(ic: Context, release: bool, sym: nat, escape: bool, enter: bool, role: Role, matched: Key)

  function OtherKeyPressed(v: Engine): Engine {
    if v.keys.heldRole.RoleNone? then v else
    var v := CancelPendingStart(v.(keys := v.keys.(chordInterrupted := true)));
    if v.session.Some? && v.session.value.stopOnRelease && !v.session.value.triggerReleased then CancelSession(v) else v
  }

  predicate IsVoice(role: Role) {
    role.RoleTrigger? || role.RoleCommand?
  }

  function NewPress(v: Engine, k: Keystroke, env: Env): Engine {
    var v := v.(keys := v.keys.(heldSym := Some(k.sym), heldRole := k.role, chordInterrupted := false, heldPressTime := env.now));
    if IsVoice(k.role) && !v.triggerMode.Tap? then StartAndMark(v, k.ic, k.matched, k.role.RoleCommand?, true, env) else v
  }

  function HotkeyPressed(v: Engine, k: Keystroke, env: Env): Engine {
    if !IsVoice(k.role) then NewPress(v, k, env) else
    var recent := env.now < v.keys.lastTriggerTime + TRIGGER_DEBOUNCE;
    var v := v.(keys := v.keys.(lastTriggerTime := env.now));
    if recent then v else
    var v := CancelPendingStop(DismissMenus(v));
    if v.session.Some? && (v.session.value.phase.Recording? || v.session.value.phase.PendingStart?) then
      if v.session.value.trigger != k.matched then CancelSession(v)
      else if !v.session.value.triggerReleased then v  // auto-repeat
      else if v.session.value.phase.PendingStart? then CancelSession(v)
      else FinishStop(v, env)
    else NewPress(v, k, env)
  }

  predicate IsRecording(v: Engine) {
    v.session.Some? && v.session.value.phase.Recording?
  }

  function ScheduleStopIfRecording(v: Engine): Engine {
    if IsRecording(v) then ScheduleStop(v) else v
  }

  function ToggleCommandPalette(v: Engine, ic: Context): Engine {
    if v.ctx.palette.Some? then v.(ctx := v.ctx.HidePalette())
    else if v.session.Some? then v
    else v.(ctx := v.ctx.(palette := Some(ic)).Touch(Some(ic)))
  }

  /** The action of the release that ends the hold. */
  function HoldEnded(v: Engine, k: Keystroke, role: Role, env: Env): Engine {
    if role.RoleMenu? then
      if v.session.None? then ToggleCommandPalette(v, k.ic) else v
    else
      match v.triggerMode
      case Hold => ScheduleStopIfRecording(v)
      case Tap =>
        if v.session.None? then StartAndMark(v, k.ic, k.matched, k.role.RoleCommand?, false, env) else ScheduleStopIfRecording(v)
      case Both =>
        if env.now < v.keys.heldPressTime + TAP_MAX_HOLD then
          if v.session.Some? then v.(session := Some(v.session.value.(triggerReleased := true, stopOnRelease := false))) else v
        else ScheduleStopIfRecording(v)
  }

  /** The part of a release that concerns the trigger of the running session. */
  function TriggerReleased(v: Engine, k: Keystroke): Engine {
    if v.session.None? || v.session.value.trigger != k.matched then v else
    var v := v.(session := Some(v.session.value.(triggerReleased := true)));
    if v.session.value.stopOnRelease then ScheduleStopIfRecording(v) else v
  }

  function HotkeyReleased(v: Engine, k: Keystroke, env: Env): Engine {
    if v.keys.heldRole == k.role && v.keys.heldSym == Some(k.sym) then
      var role := v.keys.heldRole;
      var v := v.(keys := v.keys.(heldRole := RoleNone, heldSym := None));
      if v.keys.chordInterrupted then CancelPendingStart(v.(keys := v.keys.(chordInterrupted := false)))
      else TriggerReleased(HoldEnded(v, k, role, env), k)
    else TriggerReleased(v, k)
  }

  /** The calls of a palette entry change what is known of the daemon. */
  function PaletteActs(v: Engine, env: Env): Engine {
    var v := if env.paletteStatus.Some? then v.(daemon := v.daemon.(lastStatus := env.paletteStatus.value)) else v;
    match env.paletteCall
    case NoCall => v
    case CallSucceeds => ClearFailure(v)
    case CallFails => NoteFailure(v, env)
  }

  /** An open result menu sees a key first, then an open palette. */
  predicate MenuConsumes(v: Engine, env: Env) {
    (v.ctx.result.Some? && env.resultConsumes) || (v.ctx.palette.Some? && env.paletteConsumes)
  }

  function AfterMenus(v: Engine, env: Env): Engine {
    var consumed := v.ctx.result.Some? && env.resultConsumes;
    var v := if v.ctx.result.Some? && env.resultCloses then v.(ctx := v.ctx.HideResult()) else v;
    if consumed || v.ctx.palette.None? || !env.paletteCloses then v
    else
      var v := v.(ctx := v.ctx.HidePalette());
      if env.paletteConsumes then PaletteActs(v, env) else v
  }

  /** A key that no menu consumed. */
  function Dispatch(v: Engine, k: Keystroke, env: Env): Engine {
    if k.role.RoleNone? then (if k.release then v else OtherKeyPressed(v))
    else if k.release then HotkeyReleased(v, k, env)
    else HotkeyPressed(v, k, env)
  }

  function OnKey(v: Engine, k: Keystroke, env: Env): Engine {
    var v := v.(ctx := v.ctx.(lastActive := Some(k.ic)));
    if k.release && v.keys.pendingRelease == Some(k.sym) then v.(keys := v.keys.(pendingRelease := None))
    else if v.session.Some? && v.session.value.phase.Postprocessing? && v.daemon.lastStatus.StatusPostprocessing?
            && (k.escape || (v.session.value.rawPrev && !v.session.value.commandMode && k.enter)) then
      if k.release then v else v.(keys := v.keys.(pendingRelease := Some(k.sym)))
    else
      if MenuConsumes(v, env) then AfterMenus(v, env) else Dispatch(AfterMenus(v, env), k, env)
  }

  // ---------------------------------------------------------------------------------------------
  // Contexts, timers, replies and signals

  datatype Event =
    | KeyEvent(key: Keystroke)
    | Created(ic: Context)
    | Destroyed(ic: Context)
    | FocusOut(ic: Context)
    | CommitString(ic: Context, ends: bool)   // ends: the buffered text ends a sentence
    | FlushTimer
    | StopTimerFires
    | SyncTimerFires
    | StatusReply(id: nat, ok: bool, status: Status)
    | StartReply(ok: bool)
    | StopReply(ok: bool)
    | StatusChanged(status: Status)
    | Partial
    | Result(menu: bool)                      // menu: there is more than one candidate to choose from
    | PaletteClicked                          // an entry of the open palette is chosen with the mouse
    | ResultClicked                           // and the same for the result menu
    | ConfigReloaded(mode: TriggerMode)

  /** A context that is destroyed is forgotten everywhere. */
  function Forget(c: Contexts, ic: Context): Contexts {
    var c := if c.lastActive == Some(ic) then c.(lastActive := None) else c;
    var c := if c.palette == Some(ic) then c.(palette := None) else c;
    var c := if c.result == Some(ic) then c.(result := None) else c;
    var c := if c.buffer == Some(ic) then c.(buffer := None) else c;
    c.(live := c.live - {ic})
  }

  function OnDestroyed(v: Engine, ic: Context): Engine {
    var v := if v.session.Some? && v.session.value.ic == ic
             then v.(session := None, notYetBusy := false, daemon := v.daemon.(polledIdleSince := None), poll := v.poll.NewEpoch())
             else v;
    var v := if v.ctx.status == Some(ic) then StopStatusSyncIfIdle(v.(ctx := v.ctx.(status := None))) else v;
    v.(ctx := Forget(v.ctx, ic))
  }

  function OnFocusOut(v: Engine, ic: Context): Engine {
    var v := v.(keys := v.keys.(heldSym := None, heldRole := RoleNone, chordInterrupted := true));
    if v.session.Some? && v.session.value.ic == ic && v.session.value.stopOnRelease then CancelSession(v) else v
  }

  /** Sends a status request unless one is pending. */
  function PollStatus(v: Engine, env: Env): Engine {
    if !env.bus || !SyncAllowed(v, env) || v.poll.gate.active then v
    else if env.sends then v.(poll := v.poll.Requested())
    else NoteFailure(v.(poll := v.poll.Unsent()), env)
  }

  function OnSyncTimer(v: Engine, env: Env): Engine {
    var v := PollStatus(v, env);
    v.(poll := v.poll.WithTimer(v.session.Some? || v.ctx.status.Some?))
  }

  /** The reply to status request id is acted on. */
  predicate ActsOnReply(v: Engine, id: nat) {
    id in v.poll.calls.inFlight && v.poll.gate.Current(v.poll.calls.inFlight[id])
  }

  function UseStatusReply(v: Engine, status: Status, env: Env): Engine {
    var v := v.(daemon := v.daemon.(blockedUntil := 0, lastStatus := status));
    if status.StatusEmpty? || (v.session.None? && v.ctx.status.None?) then v else
    var since := if v.daemon.polledIdleSince.Some? then v.daemon.polledIdleSince.value else env.now;
    if status.StatusIdle? && v.session.Some? && env.now < since + IDLE_RECOVERY then
      v.(daemon := v.daemon.(polledIdleSince := Some(since)))
    else ApplyStatus(v.(daemon := v.daemon.(polledIdleSince := None)), status, None, false, env)
  }

  function OnStatusReply(v: Engine, id: nat, ok: bool, status: Status, env: Env): Engine {
    if id !in v.poll.calls.inFlight then v else
    var w := v.(poll := v.poll.Replied(id));
    if !ActsOnReply(v, id) then w
    else if !ok then NoteFailure(w, env)
    else UseStatusReply(w, status, env)
  }

  /** A failed start or stop call ends the session; a good one lifts the throttle. */
  function OnCallReply(v: Engine, ok: bool, env: Env): Engine {
    if ok then ClearFailure(v) else
    var ic := ResolveInputContext(v, None);
    Present(FinishSession(NoteFailure(v, env), ic), ic)
  }

  function OnStatusChanged(v: Engine, status: Status, env: Env): Engine {
    var v := v.(poll := v.poll.Invalidated().NewSignal(), daemon := v.daemon.(lastStatus := status, polledIdleSince := None));
    var ic := ResolveInputContext(v, None);
    ApplyStatus(if ic.Some? then v.(ctx := v.ctx.(lastActive := ic)) else v, status, None, false, env)
  }

  function OnPartial(v: Engine): Engine {
    var ic := ResolveInputContext(v, None);
    if ic.None? then v else
    var v := v.(ctx := v.ctx.(lastActive := ic));
    if v.session.None? then v
    else if v.session.value.phase.Postprocessing? then
      EnterBusy(v, ic.value, v.session.value.commandMode, true, v.session.value.rawPrev)
    else if v.session.value.phase.Inferring? && !v.session.value.rawPrev then v
    else Present(v, ic)
  }

  function OnResult(v: Engine, menu: bool): Engine {
    var ic := ResolveInputContext(v, None);
    if ic.None? then v else
    var v := FinishSession(v.(ctx := v.ctx.(lastActive := ic)), ic);
    v.(ctx := if menu then v.ctx.HidePalette().(result := ic).Touch(ic) else v.ctx.Touch(ic))
  }

  function OnPaletteClicked(v: Engine, env: Env): Engine {
    if v.ctx.palette.None? then v
    else if env.paletteCloses then PaletteActs(v.(ctx := v.ctx.HidePalette()), env)
    else v.(ctx := v.ctx.Touch(v.ctx.palette))
  }

  function OnResultClicked(v: Engine): Engine {
    if v.ctx.result.None? then v else v.(ctx := v.ctx.Touch(v.ctx.result).HideResult())
  }

  /** Events of a context reach the engine only while the context exists. */
  predicate Delivered(v: Engine, e: Event) {
    match e
    case KeyEvent(k) => k.ic in v.ctx.live
    case Created(ic) => ic !in v.ctx.live
    case Destroyed(ic) => ic in v.ctx.live
    case FocusOut(ic) => ic in v.ctx.live
    case CommitString(ic, _) => ic in v.ctx.live
    case StopTimerFires => v.stopTimer
    case SyncTimerFires => v.poll.calls.timer
    case _ => true
  }

  function Handle(v: Engine, e: Event, env: Env): Engine {
    if !Delivered(v, e) then v else
    match e
    case KeyEvent(k) => OnKey(v, k, env)
    case Created(ic) => v.(ctx := v.ctx.(live := v.ctx.live + {ic}, lastActive := Some(ic)))
    case Destroyed(ic) => OnDestroyed(v, ic)
    case FocusOut(ic) => OnFocusOut(v, ic)
    case CommitString(ic, ends) => if env.keepsContext then v.(ctx := v.ctx.(buffer := if ends then None else Some(ic))) else v
    case FlushTimer => FlushContextBuffer(v)
    case StopTimerFires => FinishStop(v.(stopTimer := false), env)
    case SyncTimerFires => OnSyncTimer(v, env)
    case StatusReply(id, ok, status) => OnStatusReply(v, id, ok, status, env)
    case StartReply(ok) => OnCallReply(v, ok, env)
    case StopReply(ok) => OnCallReply(v, ok, env)
    case StatusChanged(status) => OnStatusChanged(v, status, env)
    case Partial => OnPartial(v)
    case Result(menu) => OnResult(v, menu)
    case PaletteClicked => OnPaletteClicked(v, env)
    case ResultClicked => OnResultClicked(v)
    case ConfigReloaded(mode) => ReloadSceneConfig(v.(triggerMode := mode), env)
  }

  function Run(v: Engine, events: seq<(Event, Env)>): Engine
    decreases |events|
  {
    if events == [] then v
    else Handle(Run(v, events[..|events| - 1]), events[|events| - 1].0, events[|events| - 1].1)
  }

  // ---------------------------------------------------------------------------------------------
  // The invariant

  /** A session exists exactly when a status context does, and it is the same context. */
  predicate SessionOk(s: Option<Session>, status: Option<Context>) {
    if s.Some? then status == Some(s.value.ic) else status.None?
  }

  /** Every stored context is one not yet destroyed, and no other was ever touched. */
  predicate ContextsOk(c: Contexts) {
    c.Alive(c.status) && c.Alive(c.lastActive) && c.Alive(c.palette) && c.Alive(c.result) && c.Alive(c.buffer) && !c.usedDead
  }

  /**
    A pending request belongs to the running session and its callback can still come; its ticket is current
    only as long as nothing newer happened.
   */
  predicate PollingOk(p: Polling, inSession: bool) {
    && (p.calls.timer <==> inSession)
    && (forall id :: id in p.calls.inFlight ==> p.calls.inFlight[id].id == id && id <= p.gate.requestId && id in p.calls.issued)
    && (p.gate.active ==>
          && inSession && p.calls.slot == Some(p.gate.requestId) && p.gate.requestId in p.calls.inFlight
          && p.calls.inFlight[p.gate.requestId].generation <= p.gate.generation
          && (p.calls.inFlight[p.gate.requestId].generation == p.gate.generation ==> p.calls.issued[p.gate.requestId] == p.calls.stamp))
  }

  /** While a session runs no menu is open. */
  predicate MenusOk(s: Option<Session>, c: Contexts) {
    s.Some? ==> c.palette.None? && c.result.None?
  }

  /** A chord leaves no key held. */
  predicate KeysOk(k: Keys) {
    k.chordInterrupted ==> k.heldRole.RoleNone?
  }

  /** Push-to-talk that was released while recording has its stop timer armed. */
  predicate StopOk(s: Option<Session>, notYetBusy: bool, stopTimer: bool) {
    notYetBusy ==>
      && s.Some? && (s.value.phase.PendingStart? || s.value.phase.Recording?)
      && (s.value.phase.Recording? && s.value.stopOnRelease && s.value.triggerReleased ==> stopTimer)
  }

  /** The invariant without the part about the stop timer. */
  predicate Core(v: Engine) {
    && SessionOk(v.session, v.ctx.status) && ContextsOk(v.ctx) && PollingOk(v.poll, v.session.Some?)
    && MenusOk(v.session, v.ctx) && KeysOk(v.keys)
  }

  predicate Inv(v: Engine) {
    Core(v) && StopOk(v.session, v.notYetBusy, v.stopTimer)
  }
}
