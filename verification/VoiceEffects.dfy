/** What each handler of the voice-session protocol means for the session, the polling and the timers. */
module VoiceEffects {
  import opened Wrappers
  import opened VoiceSession
  import opened VoiceProofs

  // ---------------------------------------------------------------------------------------------
  // Phases of a session

  /** No reply that may still come is acted on. */
  ghost predicate NoneCurrent(v: Engine) {
    forall id :: !ActsOnReply(v, id)
  }

  /** Exactly the same replies are acted on. */
  predicate SameReplies(v: Engine, v': Engine) {
    v'.poll.gate == v.poll.gate && v'.poll.calls.inFlight == v.poll.calls.inFlight
  }

  /** The flags of push-to-talk that a session carries from phase to phase. */
  predicate Released(v: Engine) {
    v.session.Some? && v.session.value.triggerReleased
  }

  predicate StopsOnRelease(v: Engine) {
    v.session.Some? && v.session.value.stopOnRelease
  }

  /** Whether raw text may be committed: as the session has it, or else as the scene says. */
  predicate RawOf(v: Engine, env: Env) {
    if v.session.Some? then v.session.value.rawPrev else env.sceneRawPrev
  }

  /** The whole session: on a context, in a phase, with the flags of push-to-talk it had. */
  predicate InPhase(v: Engine, v': Engine, phase: Phase, ic: Context, trigger: Key, commandMode: bool, rawPrev: bool) {
    v'.session == Some(Session(phase, ic, trigger, commandMode, Released(v), rawPrev, StopsOnRelease(v)))
  }

  /** The status makes the session record while its trigger is already released. */
  predicate ArmsStop(v: Engine, status: Status) {
    status.StatusRecording? && ReleasedEarly(v)
  }

  /** The trigger was released before the recording began, and that is to end it. */
  predicate ReleasedEarly(v: Engine) {
    && v.session.Some? && v.session.value.phase.PendingStart? && v.session.value.triggerReleased
    && (v.triggerMode.Hold? || v.session.value.stopOnRelease)
  }

  /** A pending start outdates every earlier status request. */
  ghost predicate PendingStartEffect(v: Engine, v': Engine, ic: Context, trigger: Key, commandMode: bool, env: Env) {
    && Core(v') && InPhase(v, v', PendingStart, ic, trigger, commandMode, env.sceneRawPrev) && NoneCurrent(v') && v'.poll.calls.timer
    && v'.ctx.live == v.ctx.live && v'.stopTimer == v.stopTimer && v'.daemon == v.daemon && v'.keys == v.keys && v'.ctx.lastActive == Some(ic)
  }

  lemma PendingStartMeans(v: Engine, ic: Context, trigger: Key, commandMode: bool, env: Env)
    requires Core(v) && ic in v.ctx.live
    ensures PendingStartEffect(v, EnterPendingStart(v, ic, trigger, commandMode, env), ic, trigger, commandMode, env)
  {
    PendingStartKeeps(v, ic, trigger, commandMode, env);
    MoveRemembers(v.ctx, ic);
    hide Contexts.MoveTo, WithSession, EnsureStatusSync, ContextsOk;
    var w := v.(ctx := v.ctx.MoveTo(ic), poll := v.poll.Invalidated().NewStart(), notYetBusy := true);
    var s := if w.session.Some? then w.session.value else Session(PendingStart, ic, trigger, commandMode, false, true, false);
    ShowSessionFacts(w, s.(phase := PendingStart, ic := ic, trigger := trigger, commandMode := commandMode, rawPrev := env.sceneRawPrev));
  }

  lemma ShowSessionFacts(v: Engine, s: Session)
    ensures var v' := EnsureStatusSync(WithSession(v, s));
            && v' == v.(session := Some(s), ctx := v'.ctx, poll := v'.poll) && v'.ctx.live == v.ctx.live
            && v'.poll.gate == v.poll.gate && v'.poll.calls.inFlight == v.poll.calls.inFlight && v'.poll.calls.timer
            && v'.ctx.lastActive == v.ctx.lastActive
  {
  }

  lemma MoveRemembers(c: Contexts, ic: Context)
    ensures c.MoveTo(ic).lastActive == Some(ic)
  {
  }

  /** Recording begins; the stop timer is armed for a trigger released too early, and never disarmed. */
  predicate RecordingEffect(v: Engine, v': Engine, ic: Context, trigger: Key, commandMode: bool, env: Env) {
    && Core(v') && InPhase(v, v', Recording, ic, trigger, commandMode, RawOf(v, env)) && SameReplies(v, v') && v'.poll.calls.timer
    && v'.ctx.live == v.ctx.live && (v'.stopTimer <==> v.stopTimer || ReleasedEarly(v)) && v'.daemon == v.daemon && v'.keys == v.keys
    && v'.ctx.lastActive == Some(ic)
  }

  lemma RecordingMeans(v: Engine, ic: Context, trigger: Key, commandMode: bool, env: Env)
    requires Core(v) && ic in v.ctx.live
    ensures RecordingEffect(v, EnterRecording(v, ic, trigger, commandMode, env), ic, trigger, commandMode, env)
  {
    RecordingKeeps(v, ic, trigger, commandMode, env);
    MoveRemembers(v.ctx, ic);
    hide Contexts.MoveTo, WithSession, EnsureStatusSync, Core;
    var w := v.(ctx := v.ctx.MoveTo(ic), notYetBusy := v.session.Some? && v.notYetBusy);
    var s := if w.session.Some? then w.session.value else Session(PendingStart, ic, trigger, commandMode, false, env.sceneRawPrev, false);
    ShowSessionFacts(w, s.(phase := Recording, ic := ic, trigger := trigger, commandMode := commandMode));
  }

  /** The session turns busy and forgets its trigger. */
  predicate BusyEffect(v: Engine, v': Engine, ic: Context, commandMode: bool, postprocessing: bool, rawPrev: bool) {
    && Core(v') && InPhase(v, v', if postprocessing then Postprocessing else Inferring, ic, None, commandMode, rawPrev)
    && SameReplies(v, v') && v'.poll.calls.timer && v'.ctx.live == v.ctx.live && v'.stopTimer == v.stopTimer && v'.daemon == v.daemon
    && v'.keys == v.keys && v'.ctx.lastActive == Some(ic)
  }

  lemma BusyMeans(v: Engine, ic: Context, commandMode: bool, postprocessing: bool, rawPrev: bool)
    requires Core(v) && ic in v.ctx.live
    ensures BusyEffect(v, EnterBusy(v, ic, commandMode, postprocessing, rawPrev), ic, commandMode, postprocessing, rawPrev)
  {
    BusyKeeps(v, ic, commandMode, postprocessing, rawPrev);
    MoveRemembers(v.ctx, ic);
    hide Contexts.MoveTo, WithSession, EnsureStatusSync, Core;
    var w := v.(ctx := v.ctx.MoveTo(ic), notYetBusy := false);
    var s := if w.session.Some? then w.session.value else Session(PendingStart, ic, None, commandMode, false, rawPrev, false);
    ShowSessionFacts(w, s.(phase := if postprocessing then Postprocessing else Inferring, ic := ic, trigger := None,
                           commandMode := commandMode, rawPrev := rawPrev));
  }

  /** Nothing of a session is left: no context, no poll, no callback, no timer of the polling. */
  ghost predicate FinishEffect(v: Engine, v': Engine) {
    && Core(v') && v'.session.None? && v'.ctx.status.None? && !v'.poll.gate.active && v'.poll.calls.slot.None? && !v'.poll.calls.timer
    && NoneCurrent(v') && v'.daemon == v.daemon.(polledIdleSince := None)
    && v'.ctx.live == v.ctx.live && v'.stopTimer == v.stopTimer && v'.keys == v.keys && v'.ctx.lastActive == v.ctx.lastActive
  }

  lemma FinishMeans(v: Engine, fallback: Option<Context>)
    requires Core(v) && v.ctx.Alive(fallback)
    ensures FinishEffect(v, FinishSession(v, fallback))
  {
    FinishKeeps(v, fallback);
    hide Contexts.Present;
    var ic := if v.session.Some? then Some(v.session.value.ic) else if fallback.Some? then fallback else v.ctx.status;
    PresentFacts(if v.ctx.status == ic then v.ctx.(status := None) else v.ctx, ic);
  }

  /** The phase a status of the daemon stands for. */
  function PhaseOf(status: Status): Option<Phase> {
    match status
    case StatusRecording => Some(Recording)
    case StatusInferring => Some(Inferring)
    case StatusPostprocessing => Some(Postprocessing)
    case _ => None
  }

  /** The session that follows a status on a context: in the phase of the status, or none. */
  function Followed(v: Engine, status: Status, ic: Context, commandMode: bool, env: Env): Option<Session> {
    if PhaseOf(status).None? then None
    else Some(Session(PhaseOf(status).value, ic, if status.StatusRecording? && v.session.Some? then v.session.value.trigger else None,
                      commandMode, Released(v), RawOf(v, env), StopsOnRelease(v)))
  }

  /** On a given context. */
  predicate FollowEffect(v: Engine, v': Engine, status: Status, ic: Context, commandMode: bool, env: Env) {
    && Core(v') && v'.ctx.live == v.ctx.live && v'.keys == v.keys && v'.session == Followed(v, status, ic, commandMode, env)
    && (v'.stopTimer <==> v.stopTimer || ArmsStop(v, status))
    && (PhaseOf(status).Some? ==> SameReplies(v, v') && v'.daemon == v.daemon && v'.ctx.lastActive == Some(ic))
    && (PhaseOf(status).None? ==> v'.daemon == v.daemon.(polledIdleSince := None) && v'.ctx.lastActive == v.ctx.lastActive)
  }

  function CommandOf(v: Engine, preferCommand: bool): bool {
    if v.session.Some? then v.session.value.commandMode else preferCommand
  }

  /** The session follows the status: on the context it had, or else on the one that resolves; without one nothing changes. */
  predicate ApplyEffect(v: Engine, v': Engine, status: Status, fallback: Option<Context>, preferCommand: bool, env: Env) {
    var ic := ResolveInputContext(v, fallback);
    && Core(v') && v'.ctx.live == v.ctx.live && v'.keys == v.keys
    && (if (status.StatusIdle? && v.session.None?) || ic.None? then v' == v
        else FollowEffect(v, v', status, ic.value, CommandOf(v, preferCommand), env))
  }

  lemma FollowMeans(v: Engine, status: Status, ic: Context, commandMode: bool, env: Env)
    requires Core(v) && ic in v.ctx.live
    ensures FollowEffect(v, FollowStatus(v, status, ic, commandMode, env), status, ic, commandMode, env)
  {
    hide EnterRecording, EnterBusy, FinishSession, Core, NoneCurrent, ReleasedEarly, Released, StopsOnRelease;
    var rawPrev := if v.session.Some? then v.session.value.rawPrev else env.sceneRawPrev;
    match status
    case StatusRecording => RecordingMeans(v, ic, if v.session.Some? then v.session.value.trigger else None, commandMode, env);
    case StatusInferring => BusyMeans(v, ic, commandMode, false, rawPrev);
    case StatusPostprocessing => BusyMeans(v, ic, commandMode, true, rawPrev);
    case _ =>
      AliveSome(v.ctx, ic);
      FinishMeans(v, Some(ic));
  }

  lemma ApplyMeans(v: Engine, status: Status, fallback: Option<Context>, preferCommand: bool, env: Env)
    requires Core(v) && v.ctx.Alive(fallback)
    ensures ApplyEffect(v, ApplyStatus(v, status, fallback, preferCommand, env), status, fallback, preferCommand, env)
  {
    ResolvedAlive(v, fallback);
    SessionIffStatus(v);
    hide FollowStatus, Core, FollowEffect, ResolveInputContext;
    var ic := ResolveInputContext(v, fallback);
    if ic.Some? {
      FollowMeans(v, status, ic.value, CommandOf(v, preferCommand), env);
      FollowKeeps(v, FollowStatus(v, status, ic.value, CommandOf(v, preferCommand), env), status, ic.value, CommandOf(v, preferCommand), env);
    }
  }

  lemma FollowKeeps(v: Engine, v': Engine, status: Status, ic: Context, commandMode: bool, env: Env)
    requires FollowEffect(v, v', status, ic, commandMode, env)
    ensures Core(v') && v'.ctx.live == v.ctx.live && v'.keys == v.keys
  {
    hide Core;
  }

  lemma SessionIffStatus(v: Engine)
    requires Core(v)
    ensures v.session.Some? <==> v.ctx.status.Some?
  {
  }

  /** What resolves is alive; it is the context of the session while there is one. */
  lemma ResolvedAlive(v: Engine, fallback: Option<Context>)
    requires Core(v) && v.ctx.Alive(fallback)
    ensures var ic := ResolveInputContext(v, fallback);
            && v.ctx.Alive(ic) && (v.session.Some? ==> ic == v.ctx.status == Some(v.session.value.ic))
            && (v.session.None? && fallback.Some? ==> ic == fallback)
            && (ic.None? <==> v.session.None? && fallback.None? && v.ctx.lastActive.None?)
  {
  }

  // ---------------------------------------------------------------------------------------------
  // Recording

  /** A call to the daemon that cannot be sent throttles the next ones. */
  function CallDaemon(v: Engine, env: Env): Daemon {
    if CanCall(v, env) then v.daemon else v.daemon.(blockedUntil := env.now + 1500)
  }

  /** Stopping touches only a recording, which turns busy on its context; the replies under way stay current. */
  predicate StopEffect(v: Engine, v': Engine, env: Env) {
    && Core(v') && v'.ctx.live == v.ctx.live && SameReplies(v, v') && v'.stopTimer == v.stopTimer && v'.keys == v.keys
    && (if IsRecording(v) then
          && InPhase(v, v', Inferring, v.session.value.ic, None, v.session.value.commandMode, env.sceneRawPrev)
          && v'.daemon == CallDaemon(v, env)
        else v' == v)
  }

  lemma FinishStopMeans(v: Engine, env: Env)
    requires Core(v)
    ensures StopEffect(v, FinishStop(v, env), env)
  {
    hide EnterBusy, PollingOk;
    if IsRecording(v) {
      var w := ReloadSceneConfig(v, env);
      BusyMeans(w, w.session.value.ic, w.session.value.commandMode, false, env.sceneRawPrev);
    }
  }

  /** The daemon is idle as far as is known. */
  predicate DaemonFree(v: Engine) {
    v.daemon.lastStatus.StatusEmpty? || v.daemon.lastStatus.StatusIdle?
  }

  /**
    The session a start leaves: with a free daemon a pending start exactly when it is allowed and can be sent;
    a recording nobody owns is taken over and stopped; otherwise the session follows the daemon.
   */
  function StartOutcome(v: Engine, ic: Context, trigger: Key, isCommand: bool, env: Env): Option<Session> {
    if !isCommand && v.session.None? && v.daemon.lastStatus.StatusRecording? then
      Some(Session(Inferring, ic, None, false, false, env.sceneRawPrev, false))
    else if !DaemonFree(v) then
      Followed(v, v.daemon.lastStatus, if v.session.Some? then v.session.value.ic else ic, CommandOf(v, isCommand), env)
    else if isCommand && !env.commandReady then None
    else if isCommand && !env.hasSelection then (if v.session.Some? && v.session.value.ic != ic then v.session else None)
    else if !CanCall(v, env) then None
    else Some(Session(PendingStart, ic, trigger, isCommand, Released(v), env.sceneRawPrev, StopsOnRelease(v)))
  }

  predicate StartEffect(v: Engine, v': Engine, ic: Context, trigger: Key, isCommand: bool, env: Env) {
    && Core(v') && v'.ctx.live == v.ctx.live && v'.keys == v.keys && v'.session == StartOutcome(v, ic, trigger, isCommand, env)
    && (v'.stopTimer <==> ArmsStop(v, v.daemon.lastStatus)) && v'.daemon.lastStatus == v.daemon.lastStatus
    && (DaemonFree(v) && (!isCommand || (env.commandReady && env.hasSelection)) ==> v'.daemon.blockedUntil == CallDaemon(v, env).blockedUntil)
  }

  lemma RequestStartMeans(v: Engine, ic: Context, trigger: Key, isCommand: bool, env: Env)
    requires Core(v) && ic in v.ctx.live
    ensures var v' := RequestStart(v, ic, trigger, isCommand, env);
            && Core(v') && v'.ctx.live == v.ctx.live && v'.keys == v.keys
            && (if CanCall(v, env) then InPhase(v, v', PendingStart, ic, trigger, isCommand, env.sceneRawPrev) else v'.session.None?)
            && v'.stopTimer == v.stopTimer && v'.daemon.lastStatus == v.daemon.lastStatus
            && v'.daemon.blockedUntil == CallDaemon(v, env).blockedUntil
  {
    RequestStartKeeps(v, ic, trigger, isCommand, env);
    hide FinishSession, EnterPendingStart, PollingOk, Contexts.Present;
    PendingStartMeans(v, ic, trigger, isCommand, env);
    var started := EnterPendingStart(v, ic, trigger, isCommand, env);
    var called := AfterCall(FlushContextBuffer(started), env);
    FinishMeans(called, Some(ic));
  }

  lemma DismissKeeps(v: Engine)
    requires Core(v)
    ensures var w := CancelPendingStop(DismissMenus(v));
            Core(w) && w == v.(ctx := w.ctx, stopTimer := false) && w.ctx.live == v.ctx.live && w.ctx.status == v.ctx.status
  {
    hide PollingOk, Contexts.DismissMenus;
    PresentFacts(v.ctx, None);
  }

  lemma StartMeans(v: Engine, ic: Context, trigger: Key, isCommand: bool, env: Env)
    requires Core(v) && ic in v.ctx.live
    ensures StartEffect(v, StartVoiceRecording(v, ic, trigger, isCommand, env), ic, trigger, isCommand, env)
  {
    hide EnterRecording, StartWithFreeDaemon, ApplyStatus, FinishStop, Core, Contexts.DismissMenus, CanCall, Followed, ArmsStop;
    DismissKeeps(v);
    var w := CancelPendingStop(DismissMenus(v));
    SameCall(v, w, env);
    SameSession(v, w, v.daemon.lastStatus, env);
    NotArmed(v);
    if !isCommand && w.session.None? && w.daemon.lastStatus.StatusRecording? {
      TakesOver(w, ic, trigger, env);
    } else if !DaemonFree(w) {
      StartFollows(w, ic, isCommand, env);
    } else {
      FreeStartMeans(w, ic, trigger, isCommand, env);
    }
  }

  lemma NotArmed(v: Engine)
    ensures v.session.None? || DaemonFree(v) ==> !ArmsStop(v, v.daemon.lastStatus)
  {
  }

  lemma FreeStartMeans(v: Engine, ic: Context, trigger: Key, isCommand: bool, env: Env)
    requires Core(v) && ic in v.ctx.live && DaemonFree(v)
    ensures var v' := StartWithFreeDaemon(v, ic, trigger, isCommand, env);
            && Core(v') && v'.ctx.live == v.ctx.live && v'.keys == v.keys && v'.stopTimer == v.stopTimer
            && v'.session == StartOutcome(v, ic, trigger, isCommand, env) && v'.daemon.lastStatus == v.daemon.lastStatus
            && (!isCommand || (env.commandReady && env.hasSelection) ==> v'.daemon.blockedUntil == CallDaemon(v, env).blockedUntil)
  {
    StatusIsSession(v);
    hide FinishSession, RequestStart, Core, Contexts.Present, CanCall, CallDaemon, Followed, CommandOf, Released, StopsOnRelease;
    if isCommand && !(env.commandReady && env.hasSelection) {
      RefusedStart(v, ic);
    } else {
      RequestStartMeans(v, ic, trigger, isCommand, env);
    }
  }

  lemma SameCall(v: Engine, w: Engine, env: Env)
    requires w.daemon == v.daemon
    ensures CanCall(w, env) <==> CanCall(v, env)
  {
  }

  lemma StatusIsSession(v: Engine)
    requires Core(v)
    ensures v.ctx.status == if v.session.Some? then Some(v.session.value.ic) else None
  {
  }

  /** A recording that nobody owns. */
  lemma TakesOver(v: Engine, ic: Context, trigger: Key, env: Env)
    requires Core(v) && ic in v.ctx.live && v.session.None? && v.daemon.lastStatus.StatusRecording?
    ensures var v' := FinishStop(EnterRecording(v, ic, trigger, false, env), env);
            && Core(v') && v'.ctx.live == v.ctx.live && v'.keys == v.keys && v'.stopTimer == v.stopTimer
            && v'.session == Some(Session(Inferring, ic, None, false, false, env.sceneRawPrev, false))
            && v'.daemon.lastStatus == v.daemon.lastStatus
  {
    hide EnterRecording, FinishStop, Core;
    RecordingMeans(v, ic, trigger, false, env);
    FinishStopMeans(EnterRecording(v, ic, trigger, false, env), env);
  }

  lemma StartFollows(v: Engine, ic: Context, isCommand: bool, env: Env)
    requires Core(v) && ic in v.ctx.live && !DaemonFree(v)
    ensures var v' := ApplyStatus(v, v.daemon.lastStatus, Some(ic), isCommand, env);
            && Core(v') && v'.ctx.live == v.ctx.live && v'.keys == v.keys
            && (v'.stopTimer <==> v.stopTimer || ArmsStop(v, v.daemon.lastStatus)) && v'.daemon.lastStatus == v.daemon.lastStatus
            && v'.session == Followed(v, v.daemon.lastStatus, if v.session.Some? then v.session.value.ic else ic, CommandOf(v, isCommand), env)
  {
    AliveSome(v.ctx, ic);
    ResolvedAlive(v, Some(ic));
    hide ApplyStatus, Core, Followed, ArmsStop, ResolveInputContext;
    ApplyMeans(v, v.daemon.lastStatus, Some(ic), isCommand, env);
  }

  lemma RefusedStart(v: Engine, ic: Context)
    requires Core(v) && ic in v.ctx.live
    ensures var f := FinishSession(v, Some(ic));
            && Core(Present(f, Some(ic))) && f.session.None? && f.keys == v.keys && Present(f, Some(ic)).ctx.live == v.ctx.live
            && f.stopTimer == v.stopTimer && f.daemon == v.daemon.(polledIdleSince := None)
    ensures var p := Present(Present(v, Some(ic)), Some(ic)); Core(p) && p == v.(ctx := p.ctx) && p.ctx.live == v.ctx.live
  {
    hide FinishSession, ContextsOk, PollingOk, MenusOk, Contexts.Present;
    AliveSome(v.ctx, ic);
    FinishMeans(v, Some(ic));
    var f := FinishSession(v, Some(ic));
    AliveSome(f.ctx, ic);
    PresentKeeps(f, Some(ic));
    PresentKeeps(v, Some(ic));
    var p := Present(v, Some(ic));
    AliveSome(p.ctx, ic);
    PresentKeeps(p, Some(ic));
  }

  /** Text that was buffered for the context is given up before the daemon is asked to start, whether it can be asked or not. */
  lemma StartFlushes(v: Engine, ic: Context, trigger: Key, isCommand: bool, env: Env)
    ensures RequestStart(v, ic, trigger, isCommand, env).ctx.buffer.None?
  {
    hide EnterPendingStart, FinishSession;
    var called := AfterCall(FlushContextBuffer(EnterPendingStart(v, ic, trigger, isCommand, env)), env);
    FinishLeavesBuffer(called, Some(ic));
  }

  lemma FinishLeavesBuffer(v: Engine, fallback: Option<Context>)
    ensures FinishSession(v, fallback).ctx.buffer == v.ctx.buffer
  {
  }

  /** A stop gives it up only where no scene asks for context lines any more. */
  lemma StopBuffer(v: Engine, env: Env)
    ensures FinishStop(v, env).ctx.buffer == if IsRecording(v) && !env.keepsContext then None else v.ctx.buffer
  {
    hide EnterBusy;
    if IsRecording(v) {
      var w := ReloadSceneConfig(v, env);
      BusyLeavesBuffer(w, w.session.value.ic, w.session.value.commandMode, false, env.sceneRawPrev);
    }
  }

  lemma BusyLeavesBuffer(v: Engine, ic: Context, commandMode: bool, postprocessing: bool, rawPrev: bool)
    ensures EnterBusy(v, ic, commandMode, postprocessing, rawPrev).ctx.buffer == v.ctx.buffer
  {
  }

  /** The flags that a press or a tap sets. */
  function Marked(s: Option<Session>, stopOnRelease: bool): Option<Session> {
    if s.None? then None else Some(s.value.(stopOnRelease := stopOnRelease, triggerReleased := !stopOnRelease))
  }

  /** A press leaves the session it starts or finds held; a tap leaves it released and running on. */
  predicate MarkEffect(v: Engine, v': Engine, ic: Context, trigger: Key, isCommand: bool, stopOnRelease: bool, env: Env) {
    && Core(v') && v'.ctx.live == v.ctx.live && v'.keys == v.keys
    && v'.session == Marked(StartOutcome(v, ic, trigger, isCommand, env), stopOnRelease)
    && (v'.stopTimer <==> ArmsStop(v, v.daemon.lastStatus))
  }

  lemma StartAndMarkMeans(v: Engine, ic: Context, trigger: Key, isCommand: bool, stopOnRelease: bool, env: Env)
    requires Core(v) && ic in v.ctx.live
    ensures MarkEffect(v, StartAndMark(v, ic, trigger, isCommand, stopOnRelease, env), ic, trigger, isCommand, stopOnRelease, env)
  {
    hide StartVoiceRecording, PollingOk, ContextsOk, StartOutcome, ArmsStop;
    StartMeans(v, ic, trigger, isCommand, env);
  }

  lemma CancelMeans(v: Engine)
    requires Core(v) && v.session.Some?
    ensures var v' := CancelSession(v); Core(v') && v'.session.None? && v'.ctx.live == v.ctx.live && !v'.poll.gate.active && v'.keys == v.keys && v'.stopTimer == v.stopTimer
  {
    hide FinishSession, Contexts.Present;
    var ic := Some(v.session.value.ic);
    FinishMeans(v, ic);
    PresentKeeps(FinishSession(v, ic), ic);
  }

  // ---------------------------------------------------------------------------------------------
  // Keys

  /** Another key ends a push-to-talk whose trigger is down; every other session goes on. */
  predicate OtherKeyEffect(v: Engine, v': Engine) {
    && Inv(v') && v'.stopTimer == v.stopTimer
    && v'.keys == (if v.keys.heldRole.RoleNone? then v.keys else v.keys.(chordInterrupted := true, heldRole := RoleNone, heldSym := None))
    && v'.session == if !v.keys.heldRole.RoleNone? && v.session.Some? && v.session.value.stopOnRelease && !v.session.value.triggerReleased
                     then None else v.session
  }

  lemma OtherKeyMeans(v: Engine)
    requires Inv(v)
    ensures OtherKeyEffect(v, OtherKeyPressed(v))
  {
    hide CancelSession, PollingOk, ContextsOk, MenusOk;
    OtherKeyKeeps(v);
    var w := CancelPendingStart(v.(keys := v.keys.(chordInterrupted := true)));
    if w.session.Some? {
      CancelMeans(w);
    }
  }

  predicate Debounced(v: Engine, env: Env) {
    env.now < v.keys.lastTriggerTime + 80
  }

  /** The session is starting or recording. */
  predicate Listening(v: Engine) {
    v.session.Some? && (v.session.value.phase.Recording? || v.session.value.phase.PendingStart?)
  }

  /** Another trigger cancels, auto-repeat changes nothing, the second tap cancels a start or makes a recording busy. */
  function PressedAgain(s: Session, k: Keystroke, env: Env): Option<Session> {
    if s.trigger != k.matched then None
    else if !s.triggerReleased then Some(s)
    else if s.phase.PendingStart? then None
    else Some(s.(phase := Inferring, trigger := None, rawPrev := env.sceneRawPrev))
  }

  lemma PressAgainMeans(v: Engine, k: Keystroke, env: Env)
    requires Core(v) && Listening(v)
    ensures var s := v.session.value;
            var v' := if s.trigger != k.matched then CancelSession(v)
                      else if !s.triggerReleased then v
                      else if s.phase.PendingStart? then CancelSession(v)
                      else FinishStop(v, env);
            v'.keys == v.keys && v'.stopTimer == v.stopTimer && v'.session == PressedAgain(s, k, env)
  {
    hide CancelSession, FinishStop, Core;
    CancelMeans(v);
    FinishStopMeans(v, env);
  }

  /**
    A press of a voice key: too soon after the last one it does nothing; while listening it stops the stop timer and
    does what a second press does; otherwise the key is held, and outside tap mode the session a start gives is held with it.
   */
  predicate PressEffect(v: Engine, v': Engine, k: Keystroke, env: Env) {
    var held := v.keys.(heldSym := Some(k.sym), heldRole := k.role, chordInterrupted := false, heldPressTime := env.now);
    && Inv(v')
    && (if !IsVoice(k.role) then v'.session == v.session && v'.stopTimer == v.stopTimer && v'.keys == held
        else if Debounced(v, env) then v'.session == v.session && v'.stopTimer == v.stopTimer && v'.keys == v.keys.(lastTriggerTime := env.now)
        else if Listening(v) then
          !v'.stopTimer && v'.keys == v.keys.(lastTriggerTime := env.now) && v'.session == PressedAgain(v.session.value, k, env)
        else
          && v'.keys == held.(lastTriggerTime := env.now)
          && v'.session == if v.triggerMode.Tap? then v.session else Marked(StartOutcome(v, k.ic, k.matched, k.role.RoleCommand?, env), true))
  }

  lemma SameStart(v: Engine, w: Engine, ic: Context, trigger: Key, isCommand: bool, env: Env)
    requires w.session == v.session && w.daemon == v.daemon
    ensures StartOutcome(w, ic, trigger, isCommand, env) == StartOutcome(v, ic, trigger, isCommand, env)
  {
  }

  lemma PressMeans(v: Engine, k: Keystroke, env: Env)
    requires Inv(v) && k.ic in v.ctx.live
    ensures PressEffect(v, HotkeyPressed(v, k, env), k, env)
  {
    PressKeeps(v, k, env);
    hide CancelSession, NewPress, FinishStop, Core, StopOk, Contexts.DismissMenus, StartOutcome, PressedAgain;
    if !IsVoice(k.role) {
      NewPressMeans(v, k, env);
      return;
    }
    var v1 := v.(keys := v.keys.(lastTriggerTime := env.now));
    Retimed(v, env.now);
    DismissKeeps(v1);
    var v2 := CancelPendingStop(DismissMenus(v1));
    if Listening(v2) {
      PressAgainMeans(v2, k, env);
      return;
    }
    NewPressMeans(v2, k, env);
    SameStart(v, v2, k.ic, k.matched, k.role.RoleCommand?, env);
  }

  lemma NewPressMeans(v: Engine, k: Keystroke, env: Env)
    requires Core(v) && k.ic in v.ctx.live
    ensures var v' := NewPress(v, k, env);
            && v'.keys == v.keys.(heldSym := Some(k.sym), heldRole := k.role, chordInterrupted := false, heldPressTime := env.now)
            && v'.session == (if !IsVoice(k.role) || v.triggerMode.Tap? then v.session
                              else Marked(StartOutcome(v, k.ic, k.matched, k.role.RoleCommand?, env), true))
            && (!IsVoice(k.role) ==> v'.stopTimer == v.stopTimer)
  {
    hide StartAndMark, Core, StartOutcome;
    var w := v.(keys := v.keys.(heldSym := Some(k.sym), heldRole := k.role, chordInterrupted := false, heldPressTime := env.now));
    Holds(v, k, env.now);
    StartAndMarkMeans(w, k.ic, k.matched, k.role.RoleCommand?, true, env);
    SameStart(v, w, k.ic, k.matched, k.role.RoleCommand?, env);
  }

  lemma Retimed(v: Engine, now: nat)
    requires Core(v)
    ensures Core(v.(keys := v.keys.(lastTriggerTime := now)))
  {
    hide PollingOk, ContextsOk, MenusOk, SessionOk;
  }

  lemma Holds(v: Engine, k: Keystroke, now: nat)
    requires Core(v)
    ensures Core(v.(keys := v.keys.(heldSym := Some(k.sym), heldRole := k.role, chordInterrupted := false, heldPressTime := now)))
  {
    hide PollingOk, ContextsOk, MenusOk, SessionOk;
  }

  /** The release is that of the key held down. */
  predicate EndsHold(v: Engine, k: Keystroke) {
    v.keys.heldRole == k.role && v.keys.heldSym == Some(k.sym)
  }

  /** A short hold in the mode that takes it for a tap. */
  predicate ShortHold(v: Engine, k: Keystroke, env: Env) {
    EndsHold(v, k) && IsVoice(k.role) && v.triggerMode.Both? && env.now < v.keys.heldPressTime + 200
  }

  /** The end of a hold that is to stop a recording, whatever started it. */
  predicate LongHold(v: Engine, k: Keystroke, env: Env) {
    EndsHold(v, k) && IsVoice(k.role) && !ShortHold(v, k, env)
  }

  /** In tap mode the release of the held key starts a session where there is none. */
  predicate TapStarts(v: Engine, k: Keystroke) {
    EndsHold(v, k) && IsVoice(k.role) && v.triggerMode.Tap? && v.session.None?
  }

  /** The trigger of a session goes up. */
  function LetUp(s: Session, k: Keystroke): Session {
    if s.trigger == k.matched then s.(triggerReleased := true) else s
  }

  /**
    A release that reaches the hotkeys. It marks the session whose trigger it is, and a short hold makes the session run
    on. A recording gets its stop timer at the end of a longer hold, and when its trigger goes up and it is to stop on
    release. In tap mode the release starts a session where there is none, released and to run on.
   */
  predicate ReleaseEffect(v: Engine, v': Engine, k: Keystroke, env: Env) {
    && Inv(v')
    && v'.keys == (if EndsHold(v, k) then v.keys.(heldRole := RoleNone, heldSym := None) else v.keys)
    && (if v.session.Some? then
          var s := if ShortHold(v, k, env) then v.session.value.(triggerReleased := true, stopOnRelease := false) else v.session.value;
          && v'.session == Some(LetUp(s, k))
          && (v'.stopTimer <==> v.stopTimer || (s.phase.Recording? && (LongHold(v, k, env) || (s.trigger == k.matched && s.stopOnRelease))))
        else if TapStarts(v, k) then
          v'.session == Marked(StartOutcome(v, k.ic, k.matched, k.role.RoleCommand?, env), false)
        else v'.session.None? && v'.stopTimer == v.stopTimer)
  }

  lemma ToggleKeeps(v: Engine, ic: Context)
    ensures var v' := ToggleCommandPalette(v, ic); v'.session == v.session && v'.keys == v.keys && v'.stopTimer == v.stopTimer
  {
  }

  lemma ReleaseMeans(v: Engine, k: Keystroke, env: Env)
    requires Inv(v) && k.ic in v.ctx.live && !k.role.RoleNone?
    ensures ReleaseEffect(v, HotkeyReleased(v, k, env), k, env)
  {
    ReleaseKeeps(v, k, env);
    hide HoldEnded, Core, StopOk, StartOutcome;
    var w := v.(keys := v.keys.(heldRole := RoleNone, heldSym := None));
    NoChordHeld(v);
    if EndsHold(v, k) {
      HoldEndedMeans(w, k, v.keys.heldRole, env);
      SameStart(v, w, k.ic, k.matched, k.role.RoleCommand?, env);
    }
  }

  lemma NoChordHeld(v: Engine)
    requires Core(v)
    ensures v.keys.chordInterrupted ==> v.keys.heldRole.RoleNone?
    ensures Core(v.(keys := v.keys.(heldRole := RoleNone, heldSym := None)))
  {
    hide PollingOk, ContextsOk, MenusOk, SessionOk;
  }

  /**
    The end of a hold: a short one lets the session run on, a longer one arms the timer of a recording, the menu key
    changes no session, and in tap mode a session starts where there is none.
   */
  predicate HoldEffect(v: Engine, v': Engine, k: Keystroke, role: Role, env: Env) {
    var short := !role.RoleMenu? && v.triggerMode.Both? && env.now < v.keys.heldPressTime + 200;
    && v'.keys == v.keys
    && (if v.session.Some? then
          && v'.session == Some(if short then v.session.value.(triggerReleased := true, stopOnRelease := false) else v.session.value)
          && (v'.stopTimer <==> v.stopTimer || (IsRecording(v) && !role.RoleMenu? && !short))
        else if !role.RoleMenu? && v.triggerMode.Tap? then
          v'.session == Marked(StartOutcome(v, k.ic, k.matched, k.role.RoleCommand?, env), false)
        else v'.session.None? && v'.stopTimer == v.stopTimer)
  }

  lemma HoldEndedMeans(v: Engine, k: Keystroke, role: Role, env: Env)
    requires Core(v) && k.ic in v.ctx.live
    ensures HoldEffect(v, HoldEnded(v, k, role, env), k, role, env)
  {
    hide StartAndMark, Core, ToggleCommandPalette, StartOutcome;
    ToggleKeeps(v, k.ic);
    StartAndMarkMeans(v, k.ic, k.matched, k.role.RoleCommand?, false, env);
  }

  /** A tap: with a free daemon that can be called, and for a command with a scene and a selection, it starts. */
  lemma TapStartsSession(v: Engine, k: Keystroke, env: Env)
    requires Inv(v) && k.ic in v.ctx.live && k.release && TapStarts(v, k) && v.keys.pendingRelease != Some(k.sym)
    requires DaemonFree(v) && CanCall(v, env) && (k.role.RoleCommand? ==> env.commandReady && env.hasSelection)
    requires !MenuConsumes(v, env)
    ensures Handle(v, KeyEvent(k), env).session ==
            Some(Session(PendingStart, k.ic, k.matched, k.role.RoleCommand?, true, env.sceneRawPrev, false))
  {
    hide OnKey, Core;
    KeyMeans(v, k, env);
  }

  /** A key that postprocessing takes for itself: Escape, or Enter where the raw text may be committed. */
  predicate TakenByPostprocessing(v: Engine, k: Keystroke) {
    && v.session.Some? && v.session.value.phase.Postprocessing? && v.daemon.lastStatus.StatusPostprocessing?
    && (k.escape || (v.session.value.rawPrev && !v.session.value.commandMode && k.enter))
  }

  /** A key that waits for its release to be swallowed. */
  predicate Swallowed(v: Engine, k: Keystroke) {
    k.release && v.keys.pendingRelease == Some(k.sym)
  }

  /** An open result menu sees a key first and an open palette only what is left; a palette entry that is chosen acts. */
  predicate MenuEffect(v: Engine, v': Engine, env: Env) {
    var passes := !(v.ctx.result.Some? && env.resultConsumes);
    && v'.session == v.session && v'.keys == v.keys && v'.stopTimer == v.stopTimer && v'.poll == v.poll
    && v'.ctx.result == (if env.resultCloses then None else v.ctx.result)
    && v'.ctx.palette == (if passes && env.paletteCloses then None else v.ctx.palette)
    && (if v.ctx.palette.Some? && passes && env.paletteCloses && env.paletteConsumes then
          PaletteActed(v.daemon, v'.daemon, env)
        else v'.daemon == v.daemon)
  }

  /** A palette entry: the status it learns is known from then on, a call that fails throttles, and one that succeeds lifts that. */
  predicate PaletteActed(d: Daemon, d': Daemon, env: Env) {
    && d'.polledIdleSince == d.polledIdleSince
    && d'.lastStatus == (if env.paletteStatus.Some? then env.paletteStatus.value else d.lastStatus)
    && (env.paletteCall.NoCall? ==> d'.blockedUntil == d.blockedUntil)
    && (env.paletteCall.CallSucceeds? ==> d'.blockedUntil == 0)
    && (env.paletteCall.CallFails? ==> d'.blockedUntil == env.now + 1500)
  }

  lemma EntryActs(v: Engine, env: Env)
    ensures var v' := PaletteActs(v, env); v' == v.(daemon := v'.daemon) && PaletteActed(v.daemon, v'.daemon, env)
  {
  }

  /** Menus clicked with the mouse, and the palette opened and closed with its key, change no session. */
  lemma ClicksMean(v: Engine, env: Env)
    ensures var v' := OnPaletteClicked(v, env);
            && v' == v.(ctx := v'.ctx, daemon := v'.daemon) && v'.ctx.result == v.ctx.result
            && v'.ctx.palette == (if env.paletteCloses then None else v.ctx.palette)
            && (if v.ctx.palette.Some? && env.paletteCloses then PaletteActed(v.daemon, v'.daemon, env) else v'.daemon == v.daemon)
    ensures var v' := OnResultClicked(v); v' == v.(ctx := v'.ctx) && v'.ctx.result.None? && v'.ctx.palette == v.ctx.palette
  {
  }

  lemma MenuKeyToggles(v: Engine, k: Keystroke, env: Env)
    requires Inv(v) && k.ic in v.ctx.live && v.session.None? && EndsHold(v, k) && k.role.RoleMenu?
    ensures var v' := HotkeyReleased(v, k, env);
            v'.session.None? && v'.ctx.palette == (if v.ctx.palette.Some? then None else Some(k.ic)) && v'.ctx.result == v.ctx.result
  {
    hide PollingOk, StopOk;
  }

  /**
    A key that no menu consumes does what it is to do, unless postprocessing takes the key or its release is still
    waiting to be swallowed. While a session runs no menu can take a key away from it.
   */
  predicate KeyEffect(v: Engine, v': Engine, k: Keystroke, env: Env) {
    && Inv(v') && (v.session.Some? ==> !MenuConsumes(v, env))
    && var w := v.(ctx := v.ctx.(lastActive := Some(k.ic)));
    && (Swallowed(v, k) ==> v' == w.(keys := v.keys.(pendingRelease := None)))
    && (!Swallowed(v, k) && TakenByPostprocessing(v, k) ==> v' == if k.release then w else w.(keys := v.keys.(pendingRelease := Some(k.sym))))
    && (!Swallowed(v, k) && !TakenByPostprocessing(v, k) ==>
          if MenuConsumes(v, env) then MenuEffect(v, v', env)
          else if k.role.RoleNone? then (if k.release then v'.session == v.session && v'.stopTimer == v.stopTimer else OtherKeyEffect(v, v'))
          else if k.release then ReleaseEffect(v, v', k, env)
          else PressEffect(v, v', k, env))
  }

  lemma KeyMeans(v: Engine, k: Keystroke, env: Env)
    requires Inv(v) && k.ic in v.ctx.live
    ensures KeyEffect(v, OnKey(v, k, env), k, env)
  {
    KeyKeeps(v, k, env);
    hide Dispatch, Core, StopOk, AfterMenus, MenuConsumes, MenuEffect, PressEffect, ReleaseEffect, OtherKeyEffect;
    var v1 := v.(ctx := v.ctx.(lastActive := Some(k.ic)));
    RemembersKeeps(v, k.ic);
    MenusKeep(v1, env);
    MenusMean(v, v1, env);
    if !MenuConsumes(v1, env) {
      DispatchMeans(v, AfterMenus(v1, env), k, env);
    }
  }

  lemma DispatchMeans(v: Engine, w: Engine, k: Keystroke, env: Env)
    requires Inv(w) && k.ic in w.ctx.live && w == v.(ctx := w.ctx)
    ensures var v' := Dispatch(w, k, env);
            if k.role.RoleNone? then (if k.release then v'.session == v.session && v'.stopTimer == v.stopTimer else OtherKeyEffect(v, v'))
            else if k.release then ReleaseEffect(v, v', k, env)
            else PressEffect(v, v', k, env)
  {
    hide HotkeyPressed, HotkeyReleased, OtherKeyPressed, Inv, PressEffect, ReleaseEffect, OtherKeyEffect;
    if k.role.RoleNone? {
      OtherKeyMeans(w);
      OtherKeySame(v, w, OtherKeyPressed(w));
    } else if k.release {
      ReleaseMeans(w, k, env);
      ReleaseSame(v, w, HotkeyReleased(w, k, env), k, env);
    } else {
      PressMeans(w, k, env);
      PressSame(v, w, HotkeyPressed(w, k, env), k, env);
    }
  }

  // Which context was active last makes no difference to the effects

  lemma OtherKeySame(v: Engine, w: Engine, v': Engine)
    requires w == v.(ctx := w.ctx) && OtherKeyEffect(w, v')
    ensures OtherKeyEffect(v, v')
  {
    hide Inv;
  }

  lemma ReleaseSame(v: Engine, w: Engine, v': Engine, k: Keystroke, env: Env)
    requires w == v.(ctx := w.ctx) && ReleaseEffect(w, v', k, env)
    ensures ReleaseEffect(v, v', k, env)
  {
    hide Inv, StartOutcome;
    SameStart(v, w, k.ic, k.matched, k.role.RoleCommand?, env);
  }

  lemma PressSame(v: Engine, w: Engine, v': Engine, k: Keystroke, env: Env)
    requires w == v.(ctx := w.ctx) && PressEffect(w, v', k, env)
    ensures PressEffect(v, v', k, env)
  {
    hide Inv, StartOutcome;
    SameStart(v, w, k.ic, k.matched, k.role.RoleCommand?, env);
  }

  lemma MenusMean(v: Engine, w: Engine, env: Env)
    requires w == v.(ctx := v.ctx.(lastActive := w.ctx.lastActive))
    ensures MenuConsumes(w, env) <==> MenuConsumes(v, env)
    ensures MenuEffect(v, AfterMenus(w, env), env)
    ensures !MenuConsumes(v, env) ==> AfterMenus(w, env).daemon == v.daemon
  {
    hide PaletteActs, PaletteActed;
    EntryActs(w.(ctx := w.ctx.HidePalette()), env);
    EntryActs(w.(ctx := w.ctx.HideResult().HidePalette()), env);
  }

  // ---------------------------------------------------------------------------------------------
  // Timers, replies and signals

  /** A tick asks once: never while a request is pending, and a request that cannot be sent leaves none pending. */
  ghost predicate TickEffect(v: Engine, v': Engine, env: Env) {
    && Inv(v') && v'.session == v.session && v'.stopTimer == v.stopTimer
    && (if v.poll.gate.active || !env.bus || !SyncAllowed(v, env) then SameReplies(v, v') && v'.daemon == v.daemon
        else if env.sends then
          var id := v'.poll.gate.requestId;
          ActsOnReply(v', id) && v'.poll.calls.slot == Some(id) && id !in v.poll.calls.inFlight && v'.poll.calls.issued[id] == v.poll.calls.stamp
        else NoneCurrent(v') && v'.poll.calls.slot.None? && v'.daemon.blockedUntil == env.now + 1500)
  }

  lemma TickMeans(v: Engine, env: Env)
    requires Inv(v) && v.poll.calls.timer
    ensures TickEffect(v, OnSyncTimer(v, env), env)
  {
    SyncTimerKeeps(v, env);
    hide ContextsOk, StopOk, MenusOk, KeysOk;
  }

  /** How long the daemon has been polled idle, counted from the first such reply. */
  function IdleSince(v: Engine, env: Env): nat {
    if v.daemon.polledIdleSince.Some? then v.daemon.polledIdleSince.value else env.now
  }

  /**
    A reply that is not current changes nothing but the polling; a failed one only throttles; a polled idle
    ends the session exactly when the daemon was idle for the recovery delay; any other status is followed.
   */
  predicate ReplyEffect(v: Engine, v': Engine, id: nat, ok: bool, status: Status, env: Env) {
    && Inv(v')
    && (if !ActsOnReply(v, id) then v' == v.(poll := v'.poll) && v'.poll.calls.timer == v.poll.calls.timer
        else if !ok then v'.session == v.session && v'.stopTimer == v.stopTimer && v'.daemon == v.daemon.(blockedUntil := env.now + 1500)
        else
          && v.session.Some? && v'.daemon.lastStatus == status && v'.daemon.blockedUntil == 0
          && (status.StatusOther? ==> v'.session.None?)
          && (status.StatusEmpty? ==> v'.session == v.session && v'.stopTimer == v.stopTimer)
          && (status.StatusIdle? ==>
                if env.now < IdleSince(v, env) + 5000 then v'.session == v.session && v'.stopTimer == v.stopTimer && v'.daemon.polledIdleSince == Some(IdleSince(v, env))
                else v'.session.None? && v'.daemon.polledIdleSince.None?)
          && (PhaseOf(status).Some? ==>
                && v'.session == Followed(v, status, v.session.value.ic, v.session.value.commandMode, env)
                && (v'.stopTimer <==> v.stopTimer || ArmsStop(v, status)) && v'.daemon.polledIdleSince.None?))
  }

  lemma ReplyMeans(v: Engine, id: nat, ok: bool, status: Status, env: Env)
    requires Inv(v)
    ensures ActsOnReply(v, id) ==> v.session.Some?
    ensures ReplyEffect(v, OnStatusReply(v, id, ok, status, env), id, ok, status, env)
  {
    StatusReplyKeeps(v, id, ok, status, env);
    ActsInSession(v, id);
    hide UseStatusReply, SessionOk, PollingOk, ContextsOk, StopOk, MenusOk, KeysOk;
    if ActsOnReply(v, id) && ok {
      RepliedKeeps(v, id);
      UseReplyMeans(v.(poll := v.poll.Replied(id)), status, env);
    }
  }

  lemma UseReplyMeans(v: Engine, status: Status, env: Env)
    requires Core(v) && v.session.Some?
    ensures var v' := UseStatusReply(v, status, env);
            && v'.daemon.lastStatus == status && v'.daemon.blockedUntil == 0
            && (status.StatusOther? ==> v'.session.None?)
            && (status.StatusEmpty? ==> v'.session == v.session && v'.stopTimer == v.stopTimer)
            && (status.StatusIdle? ==>
                  if env.now < IdleSince(v, env) + 5000 then v'.session == v.session && v'.stopTimer == v.stopTimer && v'.daemon.polledIdleSince == Some(IdleSince(v, env))
                  else v'.session.None? && v'.daemon.polledIdleSince.None?)
            && (PhaseOf(status).Some? ==>
                  && v'.session == Followed(v, status, v.session.value.ic, v.session.value.commandMode, env)
                  && (v'.stopTimer <==> v.stopTimer || ArmsStop(v, status)) && v'.daemon.polledIdleSince.None?)
  {
    hide ApplyStatus, PollingOk, ContextsOk, MenusOk, KeysOk;
    var w := v.(daemon := v.daemon.(blockedUntil := 0, lastStatus := status, polledIdleSince := None));
    ApplyMeans(w, status, None, false, env);
  }

  lemma ActsInSession(v: Engine, id: nat)
    requires Core(v)
    ensures ActsOnReply(v, id) ==> v.session.Some?
  {
  }

  lemma RepliedKeeps(v: Engine, id: nat)
    requires Core(v) && id in v.poll.calls.inFlight
    ensures PollingOk(v.poll.Replied(id), v.session.Some?)
  {
  }

  /** A call that failed ends the session and throttles; one that succeeded lifts the throttle. */
  predicate CallReplyEffect(v: Engine, v': Engine, ok: bool, env: Env) {
    && Inv(v') && v'.daemon.lastStatus == v.daemon.lastStatus && v'.stopTimer == v.stopTimer
    && (if ok then v'.session == v.session && v'.daemon.blockedUntil == 0
        else v'.session.None? && v'.daemon.blockedUntil == env.now + 1500)
  }

  lemma CallReplyMeans(v: Engine, ok: bool, env: Env)
    requires Inv(v)
    ensures CallReplyEffect(v, OnCallReply(v, ok, env), ok, env)
  {
    CallReplyKeeps(v, ok, env);
    hide FinishSession, Contexts.Present, PollingOk, ContextsOk;
    var ic := ResolveInputContext(v, None);
    ResolvedAlive(v, None);
    FinishMeans(NoteFailure(v, env), ic);
  }

  /** A status signal outdates every request under way, and the session follows it. */
  ghost predicate SignalEffect(v: Engine, v': Engine, status: Status, env: Env) {
    var ic := ResolveInputContext(v, None);
    && Inv(v') && NoneCurrent(v') && v'.daemon == v.daemon.(lastStatus := status, polledIdleSince := None) && v'.keys == v.keys
    && (ic.Some? ==> v'.ctx.lastActive == ic)
    && (if ic.None? || (status.StatusIdle? && v.session.None?) then v'.session == v.session && v'.stopTimer == v.stopTimer
        else v'.session == Followed(v, status, ic.value, CommandOf(v, false), env) && (v'.stopTimer <==> v.stopTimer || ArmsStop(v, status)))
  }

  lemma SignalMeans(v: Engine, status: Status, env: Env)
    requires Inv(v)
    ensures SignalEffect(v, OnStatusChanged(v, status, env), status, env)
  {
    StatusChangedKeeps(v, status, env);
    hide ApplyStatus, Inv, Core, SameReplies, NoneCurrent;
    var w := v.(poll := v.poll.Invalidated().NewSignal(), daemon := v.daemon.(lastStatus := status, polledIdleSince := None));
    var ic := ResolveInputContext(w, None);
    var u := if ic.Some? then w.(ctx := w.ctx.(lastActive := ic)) else w;
    Signalled(v, status);
    ApplyMeans(u, status, None, false, env);
    ApplyOutdates(u, status, env);
    SameSession(v, u, status, env);
    hide Followed, ArmsStop;
  }

  /** The state in which a signal is applied. */
  lemma Signalled(v: Engine, status: Status)
    requires Inv(v)
    ensures var w := v.(poll := v.poll.Invalidated().NewSignal(), daemon := v.daemon.(lastStatus := status, polledIdleSince := None));
            var ic := ResolveInputContext(w, None);
            var u := if ic.Some? then w.(ctx := w.ctx.(lastActive := ic)) else w;
            Core(u) && u.ctx.Alive(None) && NoneCurrent(u)
  {
    hide StopOk;
    InvalidatedFacts(v.poll, v.session.Some?);
    ResolvedAlive(v, None);
  }

  lemma SameSession(v: Engine, u: Engine, status: Status, env: Env)
    requires u.session == v.session && u.triggerMode == v.triggerMode
    ensures forall ic, c :: Followed(u, status, ic, c, env) == Followed(v, status, ic, c, env)
    ensures ArmsStop(u, status) <==> ArmsStop(v, status)
  {
  }

  lemma ApplyOutdates(v: Engine, status: Status, env: Env)
    requires Core(v) && NoneCurrent(v)
    ensures NoneCurrent(ApplyStatus(v, status, None, false, env))
  {
    hide EnterRecording, EnterBusy, FinishSession, ContextsOk, PollingOk, MenusOk, KeysOk, ReleasedEarly;
    ApplyMeans(v, status, None, false, env);
    ResolvedAlive(v, None);
    var ic := ResolveInputContext(v, None);
    if ic.Some? && PhaseOf(status).None? {
      FinishMeans(v, ic);
    } else if ic.Some? {
      SameNone(v, ApplyStatus(v, status, None, false, env));
    }
  }

  lemma SameNone(v: Engine, v': Engine)
    requires NoneCurrent(v) && SameReplies(v, v')
    ensures NoneCurrent(v')
  {
    forall id ensures !ActsOnReply(v', id) {
      assert !ActsOnReply(v, id);
    }
  }

  /** A partial result leaves the session in its phase, on its context, with its flags, and the replies as current as they were. */
  predicate PartialEffect(v: Engine, v': Engine) {
    && Inv(v') && SameReplies(v, v') && v'.stopTimer == v.stopTimer && v'.daemon == v.daemon && v'.keys == v.keys
    && v'.session == (if v.session.Some? && v.session.value.phase.Postprocessing? then Some(v.session.value.(trigger := None)) else v.session)
    && (v.session.Some? ==> v'.ctx.lastActive == Some(v.session.value.ic))
  }

  lemma PartialMeans(v: Engine)
    requires Inv(v)
    ensures PartialEffect(v, OnPartial(v))
  {
    PartialKeeps(v);
    hide EnterBusy, Contexts.Present, PollingOk, StopOk;
    ResolvedAlive(v, None);
    var ic := ResolveInputContext(v, None);
    var w := v.(ctx := v.ctx.(lastActive := ic));
    if v.session.Some? {
      BusyMeans(w, ic.value, w.session.value.commandMode, true, w.session.value.rawPrev);
      BusyRemembers(w, ic.value, w.session.value.commandMode, true, w.session.value.rawPrev);
      PresentFacts(w.ctx, ic);
    }
  }

  lemma BusyRemembers(v: Engine, ic: Context, commandMode: bool, postprocessing: bool, rawPrev: bool)
    ensures EnterBusy(v, ic, commandMode, postprocessing, rawPrev).ctx.lastActive == Some(ic)
  {
  }

  /** A result ends the session; a menu of candidates opens on the context that resolved, over no palette. */
  predicate ResultEffect(v: Engine, v': Engine, menu: bool) {
    var ic := ResolveInputContext(v, None);
    && Inv(v') && (ic.None? ==> v' == v)
    && (ic.Some? ==> v'.session.None? && v'.ctx.lastActive == ic && v'.ctx.palette.None? && v'.ctx.result == if menu then ic else None)
  }

  lemma ResultMeans(v: Engine, menu: bool)
    requires Inv(v)
    ensures ResultEffect(v, OnResult(v, menu), menu)
  {
    ResultKeeps(v, menu);
    hide FinishSession, PollingOk, ContextsOk, StopOk;
    var ic := ResolveInputContext(v, None);
    ResolvedAlive(v, None);
    if ic.Some? {
      var w := v.(ctx := v.ctx.(lastActive := ic));
      Remembered(v.ctx, ic);
      FinishMeans(w, ic);
      FinishCloses(w, ic);
    }
  }

  lemma Remembered(c: Contexts, ic: Option<Context>)
    requires ContextsOk(c) && c.Alive(ic)
    ensures ContextsOk(c.(lastActive := ic))
  {
  }

  lemma FinishCloses(v: Engine, ic: Option<Context>)
    requires ic.Some?
    ensures var c := FinishSession(v, ic).ctx; c.palette.None? && c.result.None?
  {
  }

  // ---------------------------------------------------------------------------------------------
  // Contexts

  /** A destroyed context is stored nowhere; a session on it is over, one on another context goes on. */
  ghost predicate DestroyedEffect(v: Engine, v': Engine, ic: Context) {
    && Inv(v') && v'.ctx.live == v.ctx.live - {ic} && v'.stopTimer == v.stopTimer
    && Some(ic) !in {v'.ctx.status, v'.ctx.lastActive, v'.ctx.palette, v'.ctx.result, v'.ctx.buffer}
    && (v.ctx.lastActive != Some(ic) ==> v'.ctx.lastActive == v.ctx.lastActive) && (v.ctx.palette != Some(ic) ==> v'.ctx.palette == v.ctx.palette)
    && (v.ctx.result != Some(ic) ==> v'.ctx.result == v.ctx.result) && (v.ctx.buffer != Some(ic) ==> v'.ctx.buffer == v.ctx.buffer)
    && (if v.session.Some? && v.session.value.ic == ic then v'.session.None? && v'.daemon == v.daemon.(polledIdleSince := None) && NoneCurrent(v') && !v'.poll.calls.timer && v'.poll.calls.slot.None?
        else v'.session == v.session && v'.poll == v.poll && v'.daemon == v.daemon)
  }

  lemma DestroyedMeans(v: Engine, ic: Context)
    requires Inv(v)
    ensures DestroyedEffect(v, OnDestroyed(v, ic), ic)
  {
    DestroyedKeeps(v, ic);
    hide ContextsOk, StopOk, MenusOk, KeysOk;
  }

  /** Losing focus lets go of every key, and ends a push-to-talk session on that context only. */
  predicate FocusOutEffect(v: Engine, v': Engine, ic: Context) {
    && Inv(v') && v'.keys == v.keys.(heldSym := None, heldRole := RoleNone, chordInterrupted := true) && v'.stopTimer == v.stopTimer
    && v'.session == if v.session.Some? && v.session.value.ic == ic && v.session.value.stopOnRelease then None else v.session
  }

  lemma FocusOutMeans(v: Engine, ic: Context)
    requires Inv(v)
    ensures FocusOutEffect(v, OnFocusOut(v, ic), ic)
  {
    FocusOutKeeps(v, ic);
    hide CancelSession, PollingOk, ContextsOk, MenusOk;
    var w := v.(keys := v.keys.(heldSym := None, heldRole := RoleNone, chordInterrupted := true));
    if w.session.Some? { CancelMeans(w); }
  }

  /** The events that only touch the contexts and the configuration. */
  lemma SmallEventsMean(v: Engine, e: Event, env: Env)
    requires Inv(v) && Delivered(v, e) && (e.Created? || e.CommitString? || e.FlushTimer? || e.ConfigReloaded?)
    ensures var v' := Handle(v, e, env);
            && v' == v.(ctx := v'.ctx, triggerMode := v'.triggerMode) && v'.triggerMode == (if e.ConfigReloaded? then e.mode else v.triggerMode)
            && v'.ctx.live == (if e.Created? then v.ctx.live + {e.ic} else v.ctx.live)
            && v'.ctx.lastActive == (if e.Created? then Some(e.ic) else v.ctx.lastActive)
            && v'.ctx.status == v.ctx.status && v'.ctx.palette == v.ctx.palette && v'.ctx.result == v.ctx.result
            && v'.ctx.buffer == (if e.FlushTimer? || (e.ConfigReloaded? && !env.keepsContext) then None
                                 else if e.CommitString? && env.keepsContext then (if e.ends then None else Some(e.ic))
                                 else v.ctx.buffer)
  {
  }
}
