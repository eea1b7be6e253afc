/**
  The engine object of the addon (src/addon/core/vinput.h), its handlers changing its fields in the order
  the source changes them. Each handler guarantees its effect on the session, the polling and the timers,
  and takes the state where the functions of VoiceSession take it, about which the claims over runs are.
 */
module VinputEngine {
  import opened Wrappers
  import opened StatusPollGate
  import opened VoiceSession
  import opened VoiceProofs
  import opened VoiceEffects

  // ---------------------------------------------------------------------------------------------
  // What holds between the statements of a handler

  lemma HidesOnlyOne(c: Contexts)
    ensures c.HideResult().palette == c.palette
  {
  }

  lemma PresentNothing(c: Contexts)
    ensures c.Present(None) == c
  {
  }

  lemma TimerFired(v: Engine)
    requires Inv(v)
    ensures Core(v.(stopTimer := false))
  {
    hide SessionOk, ContextsOk, PollingOk, MenusOk, KeysOk;
  }

  lemma DaemonKnown(v: Engine, status: Status)
    requires Core(v)
    ensures Core(v.(daemon := v.daemon.(blockedUntil := 0, lastStatus := status, polledIdleSince := None))) && v.ctx.Alive(None)
  {
    hide SessionOk, ContextsOk, PollingOk, MenusOk, KeysOk;
  }

  lemma UsableReply(v: Engine, id: nat)
    requires Inv(v)
    ensures id in v.poll.calls.inFlight ==> Core(v.(poll := v.poll.Replied(id)))
  {
    hide ContextsOk, MenusOk, KeysOk, SessionOk;
    if id in v.poll.calls.inFlight { RepliedKeeps(v, id); }
  }

  lemma FailedCall(v: Engine, env: Env)
    requires Inv(v)
    ensures Core(NoteFailure(v, env)) && v.ctx.Alive(None) && v.ctx.Alive(VoiceSession.ResolveInputContext(v, None))
    ensures VoiceSession.ResolveInputContext(NoteFailure(v, env), None) == VoiceSession.ResolveInputContext(v, None)
  {
    hide PollingOk;
    ResolvedAlive(v, None);
  }

  lemma RememberedOk(v: Engine)
    requires Inv(v)
    ensures var ic := VoiceSession.ResolveInputContext(v, None);
            && v.ctx.Alive(ic) && (ic.Some? ==> ic.value in v.ctx.live && Core(v.(ctx := v.ctx.(lastActive := ic))))
            && v.ctx.(lastActive := ic).Alive(ic) && Core(v) && v.ctx.Alive(None)
  {
    hide PollingOk;
    ResolvedAlive(v, None);
  }

  lemma SignalledOk(v: Engine, status: Status)
    requires Inv(v)
    ensures var w := v.(poll := v.poll.Invalidated().NewSignal(), daemon := v.daemon.(lastStatus := status, polledIdleSince := None));
            var ic := VoiceSession.ResolveInputContext(v, None);
            Core(w) && Core(w.(ctx := w.ctx.(lastActive := ic))) && w.ctx.Alive(None) && w.ctx.(lastActive := ic).Alive(None)
  {
    hide PollingOk;
    InvalidatedFacts(v.poll, v.session.Some?);
    ResolvedAlive(v, None);
  }

  lemma SessionAlive(v: Engine)
    requires Core(v) && v.session.Some?
    ensures v.ctx.Alive(Some(v.session.value.ic)) && v.session.value.ic in v.ctx.live
  {
    hide PollingOk;
  }

  lemma StoppableOk(v: Engine, env: Env)
    requires Core(v) && v.session.Some?
    ensures Core(ReloadSceneConfig(v, env)) && v.session.value.ic in v.ctx.live
  {
    hide PollingOk;
  }

  lemma LetGo(v: Engine)
    requires Inv(v)
    ensures Core(v.(keys := v.keys.(heldSym := None, heldRole := RoleNone, chordInterrupted := true)))
  {
    hide PollingOk, ContextsOk, MenusOk, SessionOk;
  }

  lemma UnsentStart(v: Engine, ic: Context, trigger: Key, isCommand: bool, env: Env)
    requires Core(v) && ic in v.ctx.live
    ensures var started := VoiceSession.EnterPendingStart(v, ic, trigger, isCommand, env);
            var called := AfterCall(FlushContextBuffer(started), env);
            && Core(called) && called.ctx.Alive(Some(ic))
            && (CanCall(started, env) <==> CanCall(v, env)) && (CanCall(FlushContextBuffer(started), env) <==> CanCall(v, env))
  {
    hide VoiceSession.EnterPendingStart, PollingOk;
    PendingStartMeans(v, ic, trigger, isCommand, env);
  }

  lemma Startable(v: Engine, ic: Context, trigger: Key, env: Env)
    requires Core(v) && ic in v.ctx.live
    ensures var w := VoiceSession.CancelPendingStop(VoiceSession.DismissMenus(v));
            && Core(w) && ic in w.ctx.live && w.ctx.Alive(Some(ic)) && w == v.(ctx := w.ctx, stopTimer := false)
            && Core(VoiceSession.EnterRecording(w, ic, trigger, false, env))
  {
    hide VoiceSession.EnterRecording, PollingOk, ContextsOk, MenusOk, VoiceSession.DismissMenus, SessionOk, KeysOk;
    DismissKeeps(v);
    var w := VoiceSession.CancelPendingStop(VoiceSession.DismissMenus(v));
    RecordingMeans(w, ic, trigger, false, env);
  }

  lemma Pressable(v: Engine, k: Keystroke, env: Env)
    requires Inv(v) && k.ic in v.ctx.live
    ensures var v1 := v.(keys := v.keys.(lastTriggerTime := env.now));
            var v2 := VoiceSession.CancelPendingStop(VoiceSession.DismissMenus(v1));
            var v3 := v2.(keys := v2.keys.(heldSym := Some(k.sym), heldRole := k.role, chordInterrupted := false, heldPressTime := env.now));
            Core(v2) && Core(v3) && k.ic in v3.ctx.live
  {
    hide PollingOk, ContextsOk, MenusOk, SessionOk, Contexts.DismissMenus;
    DismissKeeps(v.(keys := v.keys.(lastTriggerTime := env.now)));
  }

  lemma Releasable(v: Engine)
    requires Inv(v)
    ensures Core(v.(keys := v.keys.(heldRole := RoleNone, heldSym := None)))
  {
    hide PollingOk, ContextsOk, MenusOk, SessionOk;
  }

  class VinputEngine {
    var session: Option<Session>
    var ctx: Contexts
    const gate: StatusPollGate
    var calls: Calls
    var stopTimer: bool
    var keys: Keys
    var daemon: Daemon
    var triggerMode: TriggerMode
    ghost var notYetBusy: bool

    ghost function View(): Engine
      reads this, gate
    {
      Engine(session, ctx, Polling(gate.View(), calls), stopTimer, keys, daemon, triggerMode, notYetBusy)
    }

    constructor (mode: TriggerMode)
      ensures View() == New(mode) && Inv(View()) && fresh(gate)
    {
      gate := new StatusPollGate();
      session := None;
      ctx := Contexts(None, None, None, None, None, {}, false);
      calls := Calls(None, map[], false, map[], Stamp(0, 0, 0));
      stopTimer, notYetBusy := false, false;
      keys := Keys(None, RoleNone, 0, false, 0, None);
      daemon := Daemon(StatusEmpty, None, 0);
      triggerMode := mode;
    }

    // -------------------------------------------------------------------------------------------
    // src/addon/dbus/vinput_dbus.cpp

    method StopStatusSyncIfIdle()
      modifies this, gate
      ensures View() == VoiceSession.StopStatusSyncIfIdle(old(View()))
    {
      if session.Some? || ctx.status.Some? {
        return;
      }
      calls := calls.(timer := false);
      gate.Cancel();
      calls := calls.(slot := None);
    }

    method EnsureStatusSync()
      modifies this, gate
      ensures View() == VoiceSession.EnsureStatusSync(old(View()))
    {
      if session.None? && ctx.status.None? {
        StopStatusSyncIfIdle();
        return;
      }
      calls := calls.(timer := true);
    }

    /** rememberInputContext, then the panel of a context that is no longer the one of the session is cleared. */
    method MoveTo(ic: Context)
      modifies this, gate
      ensures View() == old(View()).(ctx := old(ctx).MoveTo(ic))
    {
      ctx := ctx.(lastActive := Some(ic));
      if ctx.status.Some? && ctx.status.value != ic {
        ctx := ctx.Present(ctx.status);
      }
    }

    /** Stores the session, shows it on its context and keeps the polling going. */
    method ShowSession(s: Session)
      modifies this, gate
      ensures View() == VoiceSession.EnsureStatusSync(WithSession(old(View()), s))
      ensures session == Some(s) && ctx.status == Some(s.ic) && calls.timer && stopTimer == old(stopTimer)
    {
      if session.None? {
        calls := calls.NewEpoch();
      }
      session := Some(s);
      ctx := ctx.(status := Some(s.ic));
      ctx := ctx.Present(Some(s.ic));
      EnsureStatusSync();
    }

    /** A new start: what was asked before is outdated. */
    method OutdateForStart()
      modifies this, gate
      ensures View() == old(View()).(poll := old(View()).poll.Invalidated().NewStart())
      ensures forall t: Ticket :: old(gate.View()).Current(t) ==> !gate.View().Current(t)
    {
      gate.Invalidate();
      calls := calls.NewStart();
    }

    method EnterPendingStart(ic: Context, trigger: Key, commandMode: bool, env: Env)
      requires Core(View()) && ic in ctx.live
      modifies this, gate
      ensures View() == VoiceSession.EnterPendingStart(old(View()), ic, trigger, commandMode, env)
      ensures PendingStartEffect(old(View()), View(), ic, trigger, commandMode, env)
    {
      hide Core, PendingStartEffect;
      PendingStartMeans(View(), ic, trigger, commandMode, env);
      hide Contexts.MoveTo, WithSession, VoiceSession.EnsureStatusSync, Polling.Invalidated, Polling.NewStart, Gate.Current;
      MoveTo(ic);
      OutdateForStart();
      var s := if session.Some? then session.value else Session(PendingStart, ic, trigger, commandMode, false, true, false);
      notYetBusy := true;
      ShowSession(s.(phase := PendingStart, ic := ic, trigger := trigger, commandMode := commandMode, rawPrev := env.sceneRawPrev));
    }

    method EnterRecording(ic: Context, trigger: Key, commandMode: bool, env: Env)
      requires Core(View()) && ic in ctx.live
      modifies this, gate
      ensures View() == VoiceSession.EnterRecording(old(View()), ic, trigger, commandMode, env)
      ensures RecordingEffect(old(View()), View(), ic, trigger, commandMode, env)
    {
      hide Core, RecordingEffect;
      RecordingMeans(View(), ic, trigger, commandMode, env);
      hide Contexts.MoveTo, WithSession, VoiceSession.EnsureStatusSync;
      hide VoiceSession.ShowRecording;
      var stopAfterStart :=
        (triggerMode.Hold? || (session.Some? && session.value.stopOnRelease)) && session.Some?
        && session.value.phase.PendingStart? && session.value.triggerReleased;
      ShowRecording(ic, trigger, commandMode, env);
      if stopAfterStart {
        stopTimer := true;
      }
    }

    method ShowRecording(ic: Context, trigger: Key, commandMode: bool, env: Env)
      modifies this, gate
      ensures View() == VoiceSession.ShowRecording(old(View()), ic, trigger, commandMode, env)
      ensures session.Some? && session.value.phase.Recording? && session.value.ic == ic && stopTimer == old(stopTimer)
    {
      hide Contexts.MoveTo, WithSession, VoiceSession.EnsureStatusSync;
      MoveTo(ic);
      notYetBusy := session.Some? && notYetBusy;
      var s := if session.Some? then session.value else Session(PendingStart, ic, trigger, commandMode, false, env.sceneRawPrev, false);
      ShowSession(s.(phase := Recording, ic := ic, trigger := trigger, commandMode := commandMode));
    }

    method EnterBusy(ic: Context, commandMode: bool, postprocessing: bool, rawPrev: bool)
      requires Core(View()) && ic in ctx.live
      modifies this, gate
      ensures View() == VoiceSession.EnterBusy(old(View()), ic, commandMode, postprocessing, rawPrev)
      ensures BusyEffect(old(View()), View(), ic, commandMode, postprocessing, rawPrev)
    {
      hide Core, BusyEffect;
      BusyMeans(View(), ic, commandMode, postprocessing, rawPrev);
      hide Contexts.MoveTo, WithSession, VoiceSession.EnsureStatusSync;
      MoveTo(ic);
      var phase := if postprocessing then Postprocessing else Inferring;
      var s := if session.Some? then session.value else Session(PendingStart, ic, None, commandMode, false, rawPrev, false);
      notYetBusy := false;
      ShowSession(s.(phase := phase, ic := ic, trigger := None, commandMode := commandMode, rawPrev := rawPrev));
    }

    method FinishSession(fallback: Option<Context>)
      requires Core(View()) && ctx.Alive(fallback)
      modifies this, gate
      ensures View() == VoiceSession.FinishSession(old(View()), fallback)
      ensures FinishEffect(old(View()), View())
    {
      hide Core, FinishEffect, Contexts.Present;
      FinishMeans(View(), fallback);
      gate.Invalidate();
      var ic := ctx.status;
      if session.Some? {
        ic := Some(session.value.ic);
        calls := calls.NewEpoch();
      } else if fallback.Some? {
        ic := fallback;
      }
      session, notYetBusy := None, false;
      daemon := daemon.(polledIdleSince := None);
      if ctx.status == ic {
        ctx := ctx.(status := None);
      }
      PresentNothing(ctx);
      if ic.Some? {
        ctx := ctx.Present(ic);
      }
      StopStatusSyncIfIdle();
    }

    method ApplyStatus(status: Status, fallback: Option<Context>, preferCommand: bool, env: Env)
      requires Core(View()) && ctx.Alive(fallback)
      modifies this, gate
      ensures View() == VoiceSession.ApplyStatus(old(View()), status, fallback, preferCommand, env)
      ensures ApplyEffect(old(View()), View(), status, fallback, preferCommand, env)
    {
      hide Core, ApplyEffect, FollowEffect, VoiceSession.ResolveInputContext, VoiceSession.FollowStatus;
      ApplyMeans(View(), status, fallback, preferCommand, env);
      if status.StatusIdle? && session.None? && ctx.status.None? {
        return;
      }
      var ic := ResolveInputContext(fallback);
      if ic.None? {
        return;
      }
      FollowStatus(status, ic.value, if session.Some? then session.value.commandMode else preferCommand, env);
    }

    /** The session on a context takes the phase that the status stands for, or ends. */
    method FollowStatus(status: Status, ic: Context, commandMode: bool, env: Env)
      requires Core(View()) && ic in ctx.live
      modifies this, gate
      ensures View() == VoiceSession.FollowStatus(old(View()), status, ic, commandMode, env)
      ensures FollowEffect(old(View()), View(), status, ic, commandMode, env)
    {
      hide Core, FollowEffect, RecordingEffect, BusyEffect, FinishEffect;
      FollowMeans(View(), status, ic, commandMode, env);
      hide VoiceSession.EnterRecording, VoiceSession.EnterBusy, VoiceSession.FinishSession;
      var rawPrev := if session.Some? then session.value.rawPrev else env.sceneRawPrev;
      match status
      case StatusRecording => EnterRecording(ic, if session.Some? then session.value.trigger else None, commandMode, env);
      case StatusInferring => EnterBusy(ic, commandMode, false, rawPrev);
      case StatusPostprocessing => EnterBusy(ic, commandMode, true, rawPrev);
      case _ => FinishSession(Some(ic));
    }

    /** A tick of the timer polls, and arms the timer again as long as there is something to follow. */
    method OnSyncTimer(env: Env)
      requires Inv(View()) && calls.timer
      modifies this, gate
      ensures View() == VoiceSession.OnSyncTimer(old(View()), env)
      ensures TickEffect(old(View()), View(), env)
    {
      hide Inv, TickEffect, PollStatus;
      TickMeans(View(), env);
      SyncWithDaemonStatus(env);
      calls := calls.(timer := session.Some? || ctx.status.Some?);
    }

    method SyncWithDaemonStatus(env: Env)
      modifies this, gate
      ensures View() == PollStatus(old(View()), env)
      ensures !old(gate.active) && CanCall(old(View()), env) ==> ActsOnReply(View(), gate.requestId) && calls.slot == Some(gate.requestId)
      ensures old(gate.active) ==> View() == old(View())
    {
      if env.bus && env.now >= daemon.blockedUntil {
        var ticket := gate.TryBegin();
        if ticket.Some? {
          if env.sends {
            calls := calls.Sent(ticket.value);
          } else {
            calls := calls.(slot := None);
            gate.Cancel();
            daemon := daemon.(blockedUntil := env.now + FAILURE_COOLDOWN);
          }
        }
      }
    }

    /** The callback of a request: it ends the request if that is still the pending one. */
    method TakeReply(id: nat) returns (current: bool)
      requires id in calls.inFlight
      modifies this, gate
      ensures View() == old(View()).(poll := old(View()).poll.Replied(id))
      ensures current == ActsOnReply(old(View()), id)
      ensures current ==> !gate.active && calls.slot.None?
    {
      var ticket := calls.inFlight[id];
      calls := calls.(inFlight := calls.inFlight - {id});
      if !gate.IsActive(ticket) {
        return false;
      }
      calls := calls.(slot := None);
      current := gate.Complete(ticket);
    }

    method OnStatusReply(id: nat, ok: bool, status: Status, env: Env)
      requires Inv(View())
      modifies this, gate
      ensures View() == VoiceSession.OnStatusReply(old(View()), id, ok, status, env)
      ensures ReplyEffect(old(View()), View(), id, ok, status, env)
    {
      hide Inv, Core, ReplyEffect, VoiceSession.UseStatusReply;
      ReplyMeans(View(), id, ok, status, env);
      UsableReply(View(), id);
      hide Polling.Replied, Gate.Current;
      if id !in calls.inFlight {
        return;
      }
      var current := TakeReply(id);
      if !current {
        return;  // outdated since it was sent
      }
      if !ok {
        daemon := daemon.(blockedUntil := env.now + FAILURE_COOLDOWN);
        return;
      }
      UseStatusReply(status, env);
    }

    /** A status that is current: a polled idle waits for the recovery delay, the rest is followed at once. */
    method UseStatusReply(status: Status, env: Env)
      requires Core(View()) && session.Some?
      modifies this, gate
      ensures View() == VoiceSession.UseStatusReply(old(View()), status, env)
      ensures daemon.lastStatus == status && daemon.blockedUntil == 0
      ensures status.StatusIdle? ==> (session.None? <==> env.now >= IdleSince(old(View()), env) + IDLE_RECOVERY)
    {
      hide VoiceSession.ApplyStatus, ApplyEffect, Core;
      UseReplyMeans(View(), status, env);
      DaemonKnown(View(), status);
      daemon := daemon.(blockedUntil := 0, lastStatus := status);
      if status.StatusEmpty? || (session.None? && ctx.status.None?) {
        return;
      }
      if status.StatusIdle? && session.Some? {
        if daemon.polledIdleSince.None? {
          daemon := daemon.(polledIdleSince := Some(env.now));
        }
        if env.now < daemon.polledIdleSince.value + IDLE_RECOVERY {
          return;
        }
      }
      daemon := daemon.(polledIdleSince := None);
      ApplyStatus(status, None, false, env);
    }

    method OnCallReply(ok: bool, env: Env)
      requires Inv(View())
      modifies this, gate
      ensures View() == VoiceSession.OnCallReply(old(View()), ok, env)
      ensures CallReplyEffect(old(View()), View(), ok, env)
    {
      hide Inv, Core, CallReplyEffect, FinishEffect, Contexts.Present, VoiceSession.ResolveInputContext;
      CallReplyMeans(View(), ok, env);
      FailedCall(View(), env);
      hide VoiceSession.FinishSession;
      if ok {
        daemon := daemon.(blockedUntil := 0);
        return;
      }
      daemon := daemon.(blockedUntil := env.now + FAILURE_COOLDOWN);
      var ic := ResolveInputContext(None);
      FinishSession(ic);
      ctx := ctx.Present(ic);
    }

    method OnStatusChanged(status: Status, env: Env)
      requires Inv(View())
      modifies this, gate
      ensures View() == VoiceSession.OnStatusChanged(old(View()), status, env)
      ensures SignalEffect(old(View()), View(), status, env)
    {
      hide Inv, Core, SignalEffect, ApplyEffect;
      SignalMeans(View(), status, env);
      SignalledOk(View(), status);
      hide VoiceSession.ApplyStatus;
      gate.Invalidate();
      calls := calls.NewSignal();
      daemon := daemon.(lastStatus := status);
      daemon := daemon.(polledIdleSince := None);
      var ic := ResolveInputContext(None);
      if ic.Some? {
        ctx := ctx.(lastActive := ic);
      }
      ApplyStatus(status, None, false, env);
    }

    method OnPartial()
      requires Inv(View())
      modifies this, gate
      ensures View() == VoiceSession.OnPartial(old(View()))
      ensures PartialEffect(old(View()), View())
    {
      hide Inv, Core, PartialEffect, BusyEffect, Contexts.Present;
      PartialMeans(View());
      RememberedOk(View());
      hide VoiceSession.EnterBusy;
      var ic := ResolveInputContext(None);
      if ic.None? {
        return;
      }
      ctx := ctx.(lastActive := ic);
      if session.None? {
        return;
      }
      if session.value.phase.Postprocessing? {
        EnterBusy(ic.value, session.value.commandMode, true, session.value.rawPrev);
        return;
      }
      if session.value.phase.Inferring? && !session.value.rawPrev {
        return;
      }
      ctx := ctx.Present(ic);
    }

    method OnResult(menu: bool)
      requires Inv(View())
      modifies this, gate
      ensures View() == VoiceSession.OnResult(old(View()), menu)
      ensures ResultEffect(old(View()), View(), menu)
    {
      hide Inv, Core, ResultEffect, FinishEffect;
      ResultMeans(View(), menu);
      RememberedOk(View());
      hide VoiceSession.FinishSession;
      var ic := ResolveInputContext(None);
      if ic.None? {
        return;
      }
      ctx := ctx.(lastActive := ic);
      FinishSession(ic);
      if menu {
        ctx := ctx.HidePalette();
        ctx := ctx.(result := ic);
      }
      ctx := ctx.Touch(ic);
    }

    // -------------------------------------------------------------------------------------------
    // src/addon/core/vinput.cpp

    /** The context to write to: alive, the one of the session while there is one, and found whenever any is known. */
    method ResolveInputContext(fallback: Option<Context>) returns (ic: Option<Context>)
      requires Core(View()) && ctx.Alive(fallback)
      ensures ic == VoiceSession.ResolveInputContext(View(), fallback)
      ensures ctx.Alive(ic) && (session.Some? ==> ic == ctx.status == Some(session.value.ic))
      ensures session.None? && fallback.Some? ==> ic == fallback
      ensures ic.None? <==> session.None? && fallback.None? && ctx.lastActive.None?
    {
      hide Core, Contexts.Alive;
      ResolvedAlive(View(), fallback);
      if session.Some? {
        return Some(session.value.ic);
      }
      if ctx.status.Some? {
        return ctx.status;
      }
      if fallback.Some? {
        return fallback;
      }
      return ctx.lastActive;
    }

    method OnDestroyed(ic: Context)
      requires Inv(View())
      modifies this, gate
      ensures View() == VoiceSession.OnDestroyed(old(View()), ic)
      ensures DestroyedEffect(old(View()), View(), ic)
    {
      hide Inv, DestroyedEffect, Forget;
      DestroyedMeans(View(), ic);
      if session.Some? && session.value.ic == ic {
        session, notYetBusy := None, false;
        calls := calls.NewEpoch();
        daemon := daemon.(polledIdleSince := None);
      }
      if ctx.status == Some(ic) {
        ctx := ctx.(status := None);
        StopStatusSyncIfIdle();
      }
      ForgetContext(ic);
    }

    method ForgetContext(ic: Context)
      modifies this, gate
      ensures View() == old(View()).(ctx := Forget(old(ctx), ic))
    {
      if ctx.lastActive == Some(ic) {
        ctx := ctx.(lastActive := None);
      }
      if ctx.palette == Some(ic) {
        ctx := ctx.(palette := None);
      }
      if ctx.result == Some(ic) {
        ctx := ctx.(result := None);
      }
      if ctx.buffer == Some(ic) {
        ctx := ctx.(buffer := None);
      }
      ctx := ctx.(live := ctx.live - {ic});
    }

    method OnFocusOut(ic: Context)
      requires Inv(View())
      modifies this, gate
      ensures View() == VoiceSession.OnFocusOut(old(View()), ic)
      ensures FocusOutEffect(old(View()), View(), ic)
    {
      hide Inv, Core, FocusOutEffect;
      FocusOutMeans(View(), ic);
      LetGo(View());
      hide VoiceSession.CancelSession;
      keys := keys.(heldSym := None);
      keys := keys.(heldRole := RoleNone);
      keys := keys.(chordInterrupted := true);
      if session.Some? && session.value.ic == ic && session.value.stopOnRelease {
        CancelSession();
      }
    }

    // -------------------------------------------------------------------------------------------
    // src/addon/input/vinput_keyevent.cpp

    method CancelSession()
      requires Core(View()) && session.Some?
      modifies this, gate
      ensures View() == VoiceSession.CancelSession(old(View()))
      ensures session.None? && Core(View()) && !gate.active
    {
      hide VoiceSession.FinishSession, Core, FinishEffect, Contexts.Present;
      CancelMeans(View());
      SessionAlive(View());
      var ic := session.value.ic;
      FinishSession(Some(ic));
      ctx := ctx.Present(Some(ic));
    }

    method FinishStop(env: Env)
      requires Core(View())
      modifies this, gate
      ensures View() == VoiceSession.FinishStop(old(View()), env)
      ensures StopEffect(old(View()), View(), env)
    {
      hide Core, StopEffect, BusyEffect;
      FinishStopMeans(View(), env);
      if session.Some? {
        StoppableOk(View(), env);
      }
      hide VoiceSession.EnterBusy;
      if session.None? || !session.value.phase.Recording? {
        return;
      }
      if !env.keepsContext {
        ctx := ctx.(buffer := None);
      }
      EnterBusy(session.value.ic, session.value.commandMode, false, env.sceneRawPrev);
      var _ := Call(env);
    }

    /** Sends a call to the daemon if it can be sent. */
    method Call(env: Env) returns (sent: bool)
      modifies this, gate
      ensures sent == CanCall(old(View()), env)
      ensures View() == AfterCall(old(View()), env)
    {
      sent := env.bus && env.now >= daemon.blockedUntil && env.sends;
      if !sent {
        daemon := daemon.(blockedUntil := env.now + FAILURE_COOLDOWN);
      }
    }

    method RequestStart(ic: Context, trigger: Key, isCommand: bool, env: Env)
      requires Core(View()) && ic in ctx.live
      modifies this, gate
      ensures View() == VoiceSession.RequestStart(old(View()), ic, trigger, isCommand, env)
      ensures Core(View()) && (if CanCall(old(View()), env) then InPhase(old(View()), View(), PendingStart, ic, trigger, isCommand, env.sceneRawPrev) else session.None?)
    {
      hide Core, PendingStartEffect, FinishEffect, InPhase, CanCall;
      RequestStartMeans(View(), ic, trigger, isCommand, env);
      UnsentStart(View(), ic, trigger, isCommand, env);
      hide VoiceSession.EnterPendingStart, VoiceSession.FinishSession, AfterCall, Contexts.Present;
      EnterPendingStart(ic, trigger, isCommand, env);
      ctx := ctx.(buffer := None);
      var sent := Call(env);
      if !sent {
        FinishSession(Some(ic));
        ctx := ctx.Present(Some(ic));
      }
    }

    method StartVoiceRecording(ic: Context, trigger: Key, isCommand: bool, env: Env)
      requires Core(View()) && ic in ctx.live
      modifies this, gate
      ensures View() == VoiceSession.StartVoiceRecording(old(View()), ic, trigger, isCommand, env)
      ensures StartEffect(old(View()), View(), ic, trigger, isCommand, env)
    {
      hide Core, StartEffect, StopEffect, ApplyEffect, InPhase;
      StartMeans(View(), ic, trigger, isCommand, env);
      Startable(View(), ic, trigger, env);
      hide VoiceSession.EnterRecording, VoiceSession.FinishSession, VoiceSession.FinishStop;
      hide VoiceSession.ApplyStatus, VoiceSession.StartWithFreeDaemon, Contexts.DismissMenus, StartOutcome;
      ctx := ctx.DismissMenus();
      stopTimer := false;
      var daemonStatus := daemon.lastStatus;
      if !isCommand && session.None? && daemonStatus.StatusRecording? {
        EnterRecording(ic, trigger, false, env);
        FinishStop(env);
        return;
      }
      if !daemonStatus.StatusEmpty? && !daemonStatus.StatusIdle? {
        ApplyStatus(daemonStatus, Some(ic), isCommand, env);
        return;
      }
      StartWithFreeDaemon(ic, trigger, isCommand, env);
    }

    /** No daemon that is known to be at work: a command needs its scene and a selection. */
    method StartWithFreeDaemon(ic: Context, trigger: Key, isCommand: bool, env: Env)
      requires Core(View()) && ic in ctx.live && DaemonFree(View())
      modifies this, gate
      ensures View() == VoiceSession.StartWithFreeDaemon(old(View()), ic, trigger, isCommand, env)
      ensures session == StartOutcome(old(View()), ic, trigger, isCommand, env)
    {
      hide Core, FinishEffect, InPhase, StartOutcome;
      FreeStartMeans(View(), ic, trigger, isCommand, env);
      AliveSome(ctx, ic);
      hide VoiceSession.FinishSession, VoiceSession.RequestStart, Contexts.Present, Contexts.Alive;
      if isCommand && !env.commandReady {
        FinishSession(Some(ic));
        ctx := ctx.Present(Some(ic));
        return;
      }
      if isCommand && !env.hasSelection {
        if ctx.status == Some(ic) {
          FinishSession(Some(ic));
        } else {
          ctx := ctx.Present(Some(ic));
        }
        ctx := ctx.Present(Some(ic));
        return;
      }
      RequestStart(ic, trigger, isCommand, env);
    }

    method StartAndMark(ic: Context, trigger: Key, isCommand: bool, stopOnRelease: bool, env: Env)
      requires Core(View()) && ic in ctx.live
      modifies this, gate
      ensures View() == VoiceSession.StartAndMark(old(View()), ic, trigger, isCommand, stopOnRelease, env)
      ensures MarkEffect(old(View()), View(), ic, trigger, isCommand, stopOnRelease, env)
    {
      hide Core, MarkEffect, StartEffect;
      StartAndMarkMeans(View(), ic, trigger, isCommand, stopOnRelease, env);
      hide VoiceSession.StartVoiceRecording;
      StartVoiceRecording(ic, trigger, isCommand, env);
      if session.Some? {
        session := Some(session.value.(stopOnRelease := stopOnRelease));
        session := Some(session.value.(triggerReleased := !stopOnRelease));
      }
    }

    method OtherKeyPressed()
      requires Inv(View())
      modifies this, gate
      ensures View() == VoiceSession.OtherKeyPressed(old(View()))
      ensures OtherKeyEffect(old(View()), View())
    {
      hide Inv, Core, OtherKeyEffect;
      OtherKeyMeans(View());
      LetGo(View());
      hide VoiceSession.CancelSession;
      if !keys.heldRole.RoleNone? {
        keys := keys.(chordInterrupted := true);
        keys := keys.(heldRole := RoleNone, heldSym := None);
        if session.Some? && session.value.stopOnRelease && !session.value.triggerReleased {
          CancelSession();
        }
      }
    }

    method HotkeyPressed(k: Keystroke, env: Env)
      requires Inv(View()) && k.ic in ctx.live
      modifies this, gate
      ensures View() == VoiceSession.HotkeyPressed(old(View()), k, env)
      ensures PressEffect(old(View()), View(), k, env)
    {
      hide Inv, Core, PressEffect, MarkEffect, StopEffect;
      PressMeans(View(), k, env);
      Pressable(View(), k, env);
      hide VoiceSession.CancelSession, VoiceSession.FinishStop, VoiceSession.StartAndMark;
      if IsVoice(k.role) {
        var recent := env.now < keys.lastTriggerTime + TRIGGER_DEBOUNCE;
        keys := keys.(lastTriggerTime := env.now);
        if recent {
          return;
        }
        ctx := ctx.DismissMenus();
        stopTimer := false;
        if session.Some? && (session.value.phase.Recording? || session.value.phase.PendingStart?) {
          if session.value.trigger == k.matched {
            if session.value.triggerReleased {
              if session.value.phase.PendingStart? {
                CancelSession();
              } else {
                FinishStop(env);
              }
            }
          } else {
            CancelSession();
          }
          return;
        }
      }
      keys := keys.(heldSym := Some(k.sym), heldRole := k.role, chordInterrupted := false, heldPressTime := env.now);
      if IsVoice(k.role) && !triggerMode.Tap? {
        StartAndMark(k.ic, k.matched, k.role.RoleCommand?, true, env);
      }
    }

    method HoldEnded(k: Keystroke, role: Role, env: Env)
      requires Core(View()) && k.ic in ctx.live
      modifies this, gate
      ensures View() == VoiceSession.HoldEnded(old(View()), k, role, env)
      ensures HoldEffect(old(View()), View(), k, role, env)
    {
      hide Core, MarkEffect, HoldEffect;
      HoldEndedMeans(View(), k, role, env);
      hide VoiceSession.StartAndMark;
      if role.RoleMenu? {
        if session.None? {
          if ctx.palette.Some? {
            ctx := ctx.HidePalette();
          } else {
            ctx := ctx.(palette := Some(k.ic)).Touch(Some(k.ic));
          }
        }
      } else if triggerMode.Hold? {
        ScheduleStopIfRecording();
      } else if triggerMode.Tap? {
        if session.None? {
          StartAndMark(k.ic, k.matched, k.role.RoleCommand?, false, env);
        } else {
          ScheduleStopIfRecording();
        }
      } else if env.now < keys.heldPressTime + TAP_MAX_HOLD {
        if session.Some? {
          session := Some(session.value.(triggerReleased := true, stopOnRelease := false));
        }
      } else {
        ScheduleStopIfRecording();
      }
    }

    method ScheduleStopIfRecording()
      modifies this, gate
      ensures View() == VoiceSession.ScheduleStopIfRecording(old(View()))
    {
      if session.Some? && session.value.phase.Recording? {
        stopTimer := true;
      }
    }

    method HotkeyReleased(k: Keystroke, env: Env)
      requires Inv(View()) && k.ic in ctx.live && !k.role.RoleNone?
      modifies this, gate
      ensures View() == VoiceSession.HotkeyReleased(old(View()), k, env)
      ensures ReleaseEffect(old(View()), View(), k, env)
    {
      hide Inv, Core, ReleaseEffect, HoldEffect;
      ReleaseMeans(View(), k, env);
      Releasable(View());
      hide VoiceSession.HoldEnded;
      if keys.heldRole == k.role && keys.heldSym == Some(k.sym) {
        var role := keys.heldRole;
        keys := keys.(heldRole := RoleNone, heldSym := None);
        if keys.chordInterrupted {
          keys := keys.(chordInterrupted := false);
          keys := keys.(heldRole := RoleNone, heldSym := None);
          return;
        }
        HoldEnded(k, role, env);
      }
      if session.Some? && session.value.trigger == k.matched {
        session := Some(session.value.(triggerReleased := true));
        if session.value.stopOnRelease {
          ScheduleStopIfRecording();
        }
      }
    }

    method PaletteActs(env: Env)
      modifies this, gate
      ensures View() == VoiceSession.PaletteActs(old(View()), env)
      ensures session == old(session) && ctx == old(ctx) && stopTimer == old(stopTimer)
    {
      if env.paletteStatus.Some? {
        daemon := daemon.(lastStatus := env.paletteStatus.value);
      }
      if env.paletteCall.CallSucceeds? {
        daemon := daemon.(blockedUntil := 0);
      } else if env.paletteCall.CallFails? {
        daemon := daemon.(blockedUntil := env.now + FAILURE_COOLDOWN);
      }
    }

    method OnKey(k: Keystroke, env: Env)
      requires Inv(View()) && k.ic in ctx.live
      modifies this, gate
      ensures View() == VoiceSession.OnKey(old(View()), k, env)
      ensures KeyEffect(old(View()), View(), k, env)
    {
      hide Inv, KeyEffect, PressEffect, ReleaseEffect, OtherKeyEffect, AfterMenus, MenuConsumes;
      KeyMeans(View(), k, env);
      RemembersKeeps(View(), k.ic);
      MenusKeep(View().(ctx := ctx.(lastActive := Some(k.ic))), env);
      hide VoiceSession.Dispatch;
      ctx := ctx.(lastActive := Some(k.ic));
      if k.release && keys.pendingRelease == Some(k.sym) {
        keys := keys.(pendingRelease := None);
        return;
      }
      if session.Some? && session.value.phase.Postprocessing? && daemon.lastStatus.StatusPostprocessing? {
        var commitRaw := session.value.rawPrev && !session.value.commandMode && k.enter;
        if k.escape || commitRaw {
          if !k.release {
            keys := keys.(pendingRelease := Some(k.sym));
          }
          return;
        }
      }
      var consumed := OfferToMenus(env);
      if !consumed {
        Dispatch(k, env);
      }
    }

    /** An open result menu sees the key first, then an open palette; during a session there is neither. */
    method OfferToMenus(env: Env) returns (consumed: bool)
      modifies this, gate
      ensures View() == AfterMenus(old(View()), env) && consumed == MenuConsumes(old(View()), env)
      ensures session == old(session) && keys == old(keys) && stopTimer == old(stopTimer)
    {
      hide Contexts.HideResult, Contexts.HidePalette;
      HidesOnlyOne(ctx);
      if ctx.result.Some? {
        if env.resultCloses {
          ctx := ctx.HideResult();
        }
        if env.resultConsumes {
          return true;
        }
      }
      if ctx.palette.Some? {
        if env.paletteCloses {
          ctx := ctx.HidePalette();
        }
        if env.paletteConsumes {
          if env.paletteCloses {
            PaletteActs(env);
          }
          return true;
        }
      }
      return false;
    }

    /** A key that no menu consumed. */
    method Dispatch(k: Keystroke, env: Env)
      requires Inv(View()) && k.ic in ctx.live
      modifies this, gate
      ensures View() == VoiceSession.Dispatch(old(View()), k, env)
      ensures k.role.RoleNone? && !k.release ==> OtherKeyEffect(old(View()), View())
      ensures !k.role.RoleNone? ==> if k.release then ReleaseEffect(old(View()), View(), k, env) else PressEffect(old(View()), View(), k, env)
    {
      hide Inv, PressEffect, ReleaseEffect, OtherKeyEffect, VoiceSession.HotkeyReleased, VoiceSession.HotkeyPressed, VoiceSession.OtherKeyPressed;
      if k.role.RoleNone? {
        if !k.release {
          OtherKeyPressed();
        }
      } else if k.release {
        HotkeyReleased(k, env);
      } else {
        HotkeyPressed(k, env);
      }
    }

    // -------------------------------------------------------------------------------------------
    // Menus and the event loop

    /** An entry chosen with the mouse closes the palette, or leads to another list in it. */
    method OnPaletteClicked(env: Env)
      modifies this, gate
      ensures View() == VoiceSession.OnPaletteClicked(old(View()), env)
      ensures session == old(session) && ctx.palette == if env.paletteCloses then None else old(ctx.palette)
    {
      if ctx.palette.Some? {
        if env.paletteCloses {
          ctx := ctx.HidePalette();
          PaletteActs(env);
        } else {
          ctx := ctx.Touch(ctx.palette);
        }
      }
    }

    method OnResultClicked()
      modifies this, gate
      ensures View() == VoiceSession.OnResultClicked(old(View()))
      ensures session == old(session) && ctx.result.None?
    {
      if ctx.result.Some? {
        ctx := ctx.Touch(ctx.result);
        ctx := ctx.HideResult();
      }
    }

    /** One event: the next state is the one Handle gives, and the invariant survives. */
    method OnEvent(e: Event, env: Env)
      requires Inv(View())
      modifies this, gate
      ensures View() == Handle(old(View()), e, env) && Inv(View())
    {
      hide Inv, VoiceSession.OnKey, VoiceSession.OnDestroyed, VoiceSession.OnFocusOut, VoiceSession.OnSyncTimer, VoiceSession.OnStatusReply;
      hide VoiceSession.OnCallReply, VoiceSession.OnStatusChanged, VoiceSession.OnPartial, VoiceSession.OnResult, VoiceSession.FinishStop;
      hide VoiceSession.OnPaletteClicked, VoiceSession.OnResultClicked, Core, KeyEffect, DestroyedEffect, FocusOutEffect, TickEffect, ReplyEffect;
      hide CallReplyEffect, SignalEffect, PartialEffect, ResultEffect, StopEffect;
      HandleKeeps(View(), e, env);
      match e
      case KeyEvent(k) => if k.ic in ctx.live { OnKey(k, env); }
      case Created(ic) => if ic !in ctx.live { ctx := ctx.(live := ctx.live + {ic}, lastActive := Some(ic)); }
      case Destroyed(ic) => if ic in ctx.live { OnDestroyed(ic); }
      case FocusOut(ic) => if ic in ctx.live { OnFocusOut(ic); }
      case CommitString(ic, ends) =>
        if ic in ctx.live && env.keepsContext {
          ctx := ctx.(buffer := Some(ic));
          if ends {
            ctx := ctx.(buffer := None);
          }
        }
      case FlushTimer => ctx := ctx.(buffer := None);
      case StopTimerFires =>
        if stopTimer {
          TimerFired(View());
          stopTimer := false;
          FinishStop(env);
        }
      case SyncTimerFires => if calls.timer { OnSyncTimer(env); }
      case StatusReply(id, ok, status) => OnStatusReply(id, ok, status, env);
      case StartReply(ok) => OnCallReply(ok, env);
      case StopReply(ok) => OnCallReply(ok, env);
      case StatusChanged(status) => OnStatusChanged(status, env);
      case Partial => OnPartial();
      case Result(menu) => OnResult(menu);
      case PaletteClicked =>
        OnPaletteClicked(env);
      case ResultClicked =>
        OnResultClicked();
      case ConfigReloaded(mode) =>
        triggerMode := mode;
        if !env.keepsContext {
          ctx := ctx.(buffer := None);
        }
    }
  }
}
