/** Exactly when push-to-talk gets stuck: recording, released, and with no timer to stop it. */
module VoiceStuck {
  import opened Wrappers
  import opened VoiceSession
  import opened VoiceProofs
  import opened VoiceEffects

  /** Recording goes on although the trigger that was to end it is up. */
  predicate Stuck(v: Engine) {
    IsRecording(v) && v.session.value.stopOnRelease && v.session.value.triggerReleased && !v.stopTimer
  }

  /** A session that was to stop on release, was released, and is being worked on. */
  predicate Exposed(v: Engine) {
    && v.session.Some? && (v.session.value.phase.Inferring? || v.session.value.phase.Postprocessing?)
    && v.session.value.stopOnRelease && v.session.value.triggerReleased && !v.stopTimer
  }

  /** The daemon says that it records, in a signal or in a reply that is acted on. */
  predicate SaysRecording(v: Engine, e: Event) {
    e == StatusChanged(StatusRecording) || (e.StatusReply? && e.ok && e.status.StatusRecording? && ActsOnReply(v, e.id))
  }

  lemma KeyNeverSticks(v: Engine, k: Keystroke, env: Env)
    requires Inv(v) && !Stuck(v) && k.ic in v.ctx.live
    ensures !Stuck(OnKey(v, k, env))
  {
    hide OnKey, Inv;
    KeyMeans(v, k, env);
  }

  lemma SignalSticksIff(v: Engine, status: Status, env: Env)
    requires Inv(v) && !Stuck(v)
    ensures Stuck(OnStatusChanged(v, status, env)) <==> Exposed(v) && status.StatusRecording?
  {
    hide OnStatusChanged, ContextsOk, PollingOk, StopOk, MenusOk, KeysOk, NoneCurrent;
    SignalMeans(v, status, env);
  }

  lemma ReplySticksIff(v: Engine, id: nat, ok: bool, status: Status, env: Env)
    requires Inv(v) && !Stuck(v)
    ensures Stuck(OnStatusReply(v, id, ok, status, env)) <==> Exposed(v) && ok && status.StatusRecording? && ActsOnReply(v, id)
  {
    hide OnStatusReply, Inv;
    ReplyMeans(v, id, ok, status, env);
  }

  lemma OthersNeverStick(v: Engine, e: Event, env: Env)
    requires Inv(v) && !Stuck(v) && Delivered(v, e) && !e.KeyEvent? && !e.StatusChanged? && !e.StatusReply?
    ensures !Stuck(Handle(v, e, env))
  {
    hide Inv, OnDestroyed, OnFocusOut, OnSyncTimer, OnCallReply, OnPartial, OnResult, FinishStop;
    match e
    case Destroyed(ic) => DestroyedMeans(v, ic);
    case FocusOut(ic) => FocusOutMeans(v, ic);
    case StopTimerFires => StopTimerNeverSticks(v, env);
    case SyncTimerFires => TickMeans(v, env);
    case StartReply(ok) => CallReplyMeans(v, ok, env);
    case StopReply(ok) => CallReplyMeans(v, ok, env);
    case Partial => PartialMeans(v);
    case Result(menu) => ResultMeans(v, menu);
    case PaletteClicked => PaletteActsKeeps(v.(ctx := v.ctx.HidePalette()), env);
    case _ =>
  }

  lemma StopTimerNeverSticks(v: Engine, env: Env)
    requires Inv(v)
    ensures !Stuck(FinishStop(v.(stopTimer := false), env))
  {
    hide FinishStop;
    FinishStopMeans(v.(stopTimer := false), env);
  }

  /**
    The exact condition: an event makes push-to-talk stick if and only if the session was released and already
    turned busy, and the daemon, by a signal or by a reply to a poll sent in this session, says that it records.
   */
  lemma SticksExactlyWhen(v: Engine, e: Event, env: Env)
    requires Inv(v) && !Stuck(v)
    ensures Stuck(Handle(v, e, env)) <==> Exposed(v) && SaysRecording(v, e)
  {
    hide Inv, OnKey, OnStatusChanged, OnStatusReply;
    if !Delivered(v, e) {
    } else if e.KeyEvent? {
      KeyNeverSticks(v, e.key, env);
    } else if e.StatusChanged? {
      SignalSticksIff(v, e.status, env);
    } else if e.StatusReply? {
      ReplySticksIff(v, e.id, e.ok, e.status, env);
    } else {
      OthersNeverStick(v, e, env);
    }
  }

  /** On every run: if push-to-talk is stuck at the end, some event made it so in just this way. */
  lemma {:induction false} StuckRunHasCause(mode: TriggerMode, events: seq<(Event, Env)>) returns (k: nat)
    requires Stuck(Run(New(mode), events))
    ensures k < |events| && Exposed(Run(New(mode), events[..k])) && SaysRecording(Run(New(mode), events[..k]), events[k].0)
    decreases |events|
  {
    hide Handle, Exposed, SaysRecording, Inv;
    NewNotStuck(mode);
    var n := |events| - 1;
    var before := events[..n];
    var v := Run(New(mode), before);
    NewOk(mode);
    RunKeeps(New(mode), before);
    if Stuck(v) {
      k := StuckRunHasCause(mode, before);
      assert events[..k] == before[..k] && events[k] == before[k];
    } else {
      k := n;
      SticksExactlyWhen(v, events[n].0, events[n].1);
    }
  }

  lemma NewNotStuck(mode: TriggerMode)
    ensures !Stuck(New(mode))
  {
  }

  lemma NewOk(mode: TriggerMode)
    ensures Inv(New(mode))
  {
  }

  lemma StoppedIsExposed(v: Engine, env: Env)
    requires Inv(v) && IsRecording(v) && v.stopTimer && v.session.value.stopOnRelease && v.session.value.triggerReleased
    ensures var busy := Handle(v, StopTimerFires, env); Exposed(busy) && SameReplies(v, busy)
  {
    hide FinishStop, SessionOk, ContextsOk, PollingOk, MenusOk, KeysOk;
    FinishStopMeans(v.(stopTimer := false), env);
  }

  /**
    The other way in: a poll under way when the stop timer fires is still current afterwards, and if it then
    says that the daemon records, push-to-talk sticks.
   */
  lemma LateReplySticks(v: Engine, id: nat, stop: Env, reply: Env)
    requires Inv(v) && IsRecording(v) && v.stopTimer && v.session.value.stopOnRelease && v.session.value.triggerReleased && ActsOnReply(v, id)
    ensures var busy := Handle(v, StopTimerFires, stop);
            Exposed(busy) && ActsOnReply(busy, id) && Stuck(Handle(busy, StatusReply(id, true, StatusRecording), reply))
  {
    hide FinishStop, OnStatusReply, Core;
    StoppedIsExposed(v, stop);
    var busy := Handle(v, StopTimerFires, stop);
    HandleKeeps(v, StopTimerFires, stop);
    ReplySticksIff(busy, id, true, StatusRecording, reply);
  }

  // ---------------------------------------------------------------------------------------------
  // A whole run that sticks

  const CALM: Env := Env(1000, true, true, true, true, true, true, false, false, false, false, NoCall, None)
  const KEY: Keystroke := Keystroke(0, false, 7, false, false, RoleTrigger, Some(7))

  /** Press, recording starts, a long hold is released, the stop timer fires, and a late signal says Recording again. */
  const LATE_SIGNAL: seq<(Event, Env)> :=
    [(Created(0), CALM), (KeyEvent(KEY), CALM), (StatusChanged(StatusRecording), CALM),
     (KeyEvent(KEY.(release := true)), CALM.(now := 2000)), (StopTimerFires, CALM.(now := 2500)),
     (StatusChanged(StatusRecording), CALM.(now := 2600))]

  lemma RunSnoc(v: Engine, events: seq<(Event, Env)>, k: nat)
    requires k < |events|
    ensures Run(v, events[..k + 1]) == Handle(Run(v, events[..k]), events[k].0, events[k].1)
  {
    assert events[..k + 1][..k] == events[..k];
  }

  function Started(): Session {
    Session(PendingStart, 0, Some(7), false, false, true, true)
  }

  lemma PressStarts()
    ensures var v := Run(New(Both), LATE_SIGNAL[..2]);
            v.session == Some(Started()) && !v.stopTimer && v.triggerMode.Both? && v.notYetBusy && v.ctx.live == {0}
            && v.keys.heldSym == Some(7) && v.keys.heldRole == RoleTrigger && v.keys.heldPressTime == 1000 && !v.keys.chordInterrupted
            && v.keys.pendingRelease.None? && v.ctx.result.None? && v.ctx.palette.None?
  {
    RunSnoc(New(Both), LATE_SIGNAL, 0);
    RunSnoc(New(Both), LATE_SIGNAL, 1);
    assert LATE_SIGNAL[..0] == [];
  }

  lemma ReleaseArms()
    ensures var v := Run(New(Both), LATE_SIGNAL[..4]);
            v.session == Some(Started().(phase := Recording, triggerReleased := true)) && v.stopTimer && v.ctx.live == {0}
  {
    hide Run;
    PressStarts();
    RunSnoc(New(Both), LATE_SIGNAL, 2);
    RunSnoc(New(Both), LATE_SIGNAL, 3);
  }

  /** Once the session was busy, a late status signal can leave it recording, released and with no stop timer. */
  lemma LateSignalSticks()
    ensures Stuck(Run(New(Both), LATE_SIGNAL))
  {
    hide Run, Core;
    ReleaseArms();
    NewOk(Both);
    RunKeeps(New(Both), LATE_SIGNAL[..4]);
    RunKeeps(New(Both), LATE_SIGNAL[..5]);
    RunSnoc(New(Both), LATE_SIGNAL, 4);
    RunSnoc(New(Both), LATE_SIGNAL, 5);
    hide FinishStop, OnStatusChanged;
    var v := Run(New(Both), LATE_SIGNAL[..4]);
    StoppedIsExposed(v, CALM.(now := 2500));
    SignalSticksIff(Run(New(Both), LATE_SIGNAL[..5]), StatusRecording, CALM.(now := 2600));
    assert LATE_SIGNAL[..6] == LATE_SIGNAL;
  }


  // ---------------------------------------------------------------------------------------------
  // A release that is never seen

  /**
    The release of the trigger of a starting or recording session is seen if and only if no key of the same sym is
    waiting for its own release to be swallowed.
   */
  lemma ReleaseSeenIff(v: Engine, k: Keystroke, env: Env)
    requires Inv(v) && Listening(v) && v.session.value.trigger == k.matched && !v.session.value.triggerReleased
    requires k.release && !k.role.RoleNone? && k.ic in v.ctx.live
    ensures var v' := Handle(v, KeyEvent(k), env);
            && v'.session.Some? && v'.session.value.ic == v.session.value.ic && v'.session.value.phase == v.session.value.phase
            && (v'.session.value.triggerReleased <==> v.keys.pendingRelease != Some(k.sym))
            && (v'.session.value.triggerReleased && v'.session.value.stopOnRelease && IsRecording(v') ==> v'.stopTimer)
  {
    hide OnKey, Core;
    KeyMeans(v, k, env);
  }

  // What waits for its release stays waiting

  lemma PressLeavesPending(v: Engine, k: Keystroke, env: Env)
    requires Inv(v) && k.ic in v.ctx.live
    ensures HotkeyPressed(v, k, env).keys.pendingRelease == v.keys.pendingRelease
  {
    hide CancelSession, StartAndMark, FinishStop, PollingOk, ContextsOk, MenusOk, StopOk, SessionOk, Contexts.DismissMenus;
    var v1 := v.(keys := v.keys.(lastTriggerTime := env.now));
    DismissKeeps(v1);
    var v2 := CancelPendingStop(DismissMenus(v1));
    if v2.session.Some? {
      CancelMeans(v2);
    }
    FinishStopMeans(v2, env);
    StartAndMarkMeans(v2.(keys := v2.keys.(heldSym := Some(k.sym), heldRole := k.role, chordInterrupted := false, heldPressTime := env.now)),
                      k.ic, k.matched, k.role.RoleCommand?, true, env);
  }

  lemma ReleaseLeavesPending(v: Engine, k: Keystroke, env: Env)
    requires Inv(v) && k.ic in v.ctx.live
    ensures HotkeyReleased(v, k, env).keys.pendingRelease == v.keys.pendingRelease
  {
    hide StartAndMark, Core, StopOk, Contexts.HidePalette, Contexts.Touch;
    var w := v.(keys := v.keys.(heldRole := RoleNone, heldSym := None));
    NoChordHeld(v);
    StartAndMarkMeans(w, k.ic, k.matched, k.role.RoleCommand?, false, env);
  }

  lemma OtherLeavesPending(v: Engine)
    requires Inv(v)
    ensures OtherKeyPressed(v).keys.pendingRelease == v.keys.pendingRelease
  {
    hide CancelSession, PollingOk, ContextsOk, MenusOk;
    var w := CancelPendingStart(v.(keys := v.keys.(chordInterrupted := true)));
    if w.session.Some? {
      CancelMeans(w);
    }
  }

  /** The event is a key that postprocessing takes when it goes down. */
  predicate Takes(v: Engine, e: Event) {
    e.KeyEvent? && !e.key.release && TakenByPostprocessing(v, e.key)
  }

  lemma KeyPending(v: Engine, k: Keystroke, env: Env)
    requires Inv(v) && k.ic in v.ctx.live
    ensures OnKey(v, k, env).keys.pendingRelease ==
            if Swallowed(v, k) then None else if Takes(v, KeyEvent(k)) then Some(k.sym) else v.keys.pendingRelease
  {
    hide HotkeyPressed, HotkeyReleased, OtherKeyPressed, Core, StopOk, AfterMenus, MenuConsumes;
    var v1 := v.(ctx := v.ctx.(lastActive := Some(k.ic)));
    RemembersKeeps(v, k.ic);
    MenusKeep(v1, env);
    var w := AfterMenus(v1, env);
    OtherLeavesPending(w);
    ReleaseLeavesPending(w, k, env);
    PressLeavesPending(w, k, env);
  }

  lemma OthersLeavePending(v: Engine, e: Event, env: Env)
    requires Inv(v) && Delivered(v, e) && !e.KeyEvent?
    ensures Handle(v, e, env).keys.pendingRelease == v.keys.pendingRelease
  {
    hide Core, EnterBusy, FinishSession, ApplyStatus, FinishStop, CancelSession, PaletteActs, Contexts.Present;
    match e
    case FocusOut(ic) => FocusOutLeavesPending(v, ic);
    case StopTimerFires => StopLeavesPending(v, env);
    case StatusReply(id, ok, status) => ReplyLeavesPending(v, id, ok, status, env);
    case StartReply(ok) => FinishLeavesPending(NoteFailure(v, env), ResolveInputContext(v, None));
    case StopReply(ok) => FinishLeavesPending(NoteFailure(v, env), ResolveInputContext(v, None));
    case StatusChanged(status) => SignalLeavesPending(v, status, env);
    case Partial => PartialLeavesPending(v);
    case Result(menu) => FinishLeavesPending(v.(ctx := v.ctx.(lastActive := ResolveInputContext(v, None))), ResolveInputContext(v, None));
    case PaletteClicked => PaletteActsKeeps(v.(ctx := v.ctx.HidePalette()), env);
    case _ =>
  }

  lemma FinishLeavesPending(v: Engine, fallback: Option<Context>)
    ensures FinishSession(v, fallback).keys == v.keys
  {
  }

  lemma FocusOutLeavesPending(v: Engine, ic: Context)
    ensures OnFocusOut(v, ic).keys.pendingRelease == v.keys.pendingRelease
  {
    hide FinishSession, Contexts.Present;
    var w := v.(keys := v.keys.(heldSym := None, heldRole := RoleNone, chordInterrupted := true));
    if w.session.Some? {
      FinishLeavesPending(w, Some(w.session.value.ic));
    }
  }

  lemma StopLeavesPending(v: Engine, env: Env)
    requires Inv(v)
    ensures FinishStop(v.(stopTimer := false), env).keys == v.keys
  {
    hide FinishStop;
    FinishStopMeans(v.(stopTimer := false), env);
  }

  lemma SignalLeavesPending(v: Engine, status: Status, env: Env)
    requires Inv(v)
    ensures OnStatusChanged(v, status, env).keys == v.keys
  {
    hide ApplyStatus, Core;
    var w := v.(poll := v.poll.Invalidated().NewSignal(), daemon := v.daemon.(lastStatus := status, polledIdleSince := None));
    var ic := ResolveInputContext(w, None);
    Signalled(v, status);
    ApplyMeans(if ic.Some? then w.(ctx := w.ctx.(lastActive := ic)) else w, status, None, false, env);
  }

  lemma ReplyLeavesPending(v: Engine, id: nat, ok: bool, status: Status, env: Env)
    requires Inv(v)
    ensures OnStatusReply(v, id, ok, status, env).keys == v.keys
  {
    hide ApplyStatus, PollingOk, ContextsOk, MenusOk, KeysOk, SessionOk;
    if id in v.poll.calls.inFlight {
      RepliedKeeps(v, id);
      var w := v.(poll := v.poll.Replied(id), daemon := v.daemon.(blockedUntil := 0, lastStatus := status, polledIdleSince := None));
      ApplyMeans(w, status, None, false, env);
    }
  }

  lemma PartialLeavesPending(v: Engine)
    requires Inv(v)
    ensures OnPartial(v).keys == v.keys
  {
    hide EnterBusy, Contexts.Present, PollingOk;
    ResolvedAlive(v, None);
    var ic := ResolveInputContext(v, None);
    var w := v.(ctx := v.ctx.(lastActive := ic));
    if v.session.Some? {
      BusyMeans(w, ic.value, w.session.value.commandMode, true, w.session.value.rawPrev);
    }
  }

  /**
    A key that waits for its release to be swallowed goes on waiting through every event, the end of its session and
    the loss of focus included, until that release comes or postprocessing takes another key.
   */
  lemma WaitsUntilReleased(v: Engine, e: Event, env: Env)
    requires Inv(v) && v.keys.pendingRelease.Some?
    ensures Handle(v, e, env).keys.pendingRelease != v.keys.pendingRelease <==>
            && Delivered(v, e) && e.KeyEvent?
            && (Swallowed(v, e.key) || (Takes(v, e) && Some(e.key.sym) != v.keys.pendingRelease))
  {
    hide Inv, OnKey;
    if Delivered(v, e) {
      if e.KeyEvent? {
        KeyPending(v, e.key, env);
      } else {
        OthersLeavePending(v, e, env);
      }
    }
  }

  const ENTER: Keystroke := Keystroke(0, false, 7, false, true, RoleTrigger, Some(7))

  /** Enter commits the raw text and goes up elsewhere; then Enter, a trigger as well, starts a recording and is released. */
  const LOST_RELEASE: seq<(Event, Env)> :=
    [(Created(0), CALM), (StatusChanged(StatusPostprocessing), CALM), (KeyEvent(ENTER), CALM), (StatusChanged(StatusIdle), CALM),
     (KeyEvent(ENTER), CALM.(now := 3000)), (StatusChanged(StatusRecording), CALM.(now := 3100)),
     (KeyEvent(ENTER.(release := true)), CALM.(now := 5000))]

  /** The key waits for its release, with no session left and the daemon idle. */
  predicate Leftover(v: Engine) {
    && v.session.None? && v.keys.pendingRelease == Some(7) && v.keys.lastTriggerTime == 0 && !v.stopTimer
    && v.triggerMode.Both? && v.daemon.lastStatus.StatusIdle? && v.daemon.blockedUntil == 0 && v.ctx.live == {0}
    && v.ctx.palette.None? && v.ctx.result.None?
  }

  lemma EnterTaken()
    ensures var v := Run(New(Both), LOST_RELEASE[..3]);
            && v.session.Some? && v.session.value.ic == 0 && v.keys.pendingRelease == Some(7) && v.keys.lastTriggerTime == 0 && !v.stopTimer
            && v.triggerMode.Both? && v.daemon.blockedUntil == 0 && v.ctx.live == {0} && v.ctx.status == Some(0)
            && v.ctx.palette.None? && v.ctx.result.None?
  {
    RunSnoc(New(Both), LOST_RELEASE, 0);
    RunSnoc(New(Both), LOST_RELEASE, 1);
    RunSnoc(New(Both), LOST_RELEASE, 2);
    assert LOST_RELEASE[..0] == [];
  }

  lemma LeavesARelease()
    ensures Leftover(Run(New(Both), LOST_RELEASE[..4]))
  {
    hide Run;
    EnterTaken();
    RunSnoc(New(Both), LOST_RELEASE, 3);
  }

  lemma EnterStarts()
    ensures var v := Run(New(Both), LOST_RELEASE[..5]);
            && v.session == Some(Started()) && v.keys.pendingRelease == Some(7) && !v.stopTimer && v.ctx.live == {0} && v.notYetBusy
  {
    hide Run;
    LeavesARelease();
    RunSnoc(New(Both), LOST_RELEASE, 4);
  }

  lemma EnterRecords()
    ensures var v := Run(New(Both), LOST_RELEASE[..6]);
            && v.session == Some(Started().(phase := Recording)) && v.keys.pendingRelease == Some(7) && !v.stopTimer && v.ctx.live == {0}
            && v.notYetBusy
  {
    hide Run;
    EnterStarts();
    RunSnoc(New(Both), LOST_RELEASE, 5);
  }

  /** A recording that is to stop on release goes on with its key up: the release was swallowed, and the session was never busy. */
  lemma LostReleaseSticks()
    ensures var v := Run(New(Both), LOST_RELEASE);
            && IsRecording(v) && v.session.value.stopOnRelease && !v.session.value.triggerReleased && !v.stopTimer && v.notYetBusy
            && v.session.value.trigger == ENTER.matched
  {
    hide Run;
    EnterRecords();
    RunSnoc(New(Both), LOST_RELEASE, 6);
    assert LOST_RELEASE[..7] == LOST_RELEASE;
  }
}
