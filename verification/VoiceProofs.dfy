/** What the voice-session protocol keeps over every sequence of events. */
module VoiceProofs {
  import opened Wrappers
  import opened VoiceSession

  predicate StopSafe(v: Engine) {
    StopOk(v.session, v.notYetBusy, v.stopTimer)
  }

  // ---------------------------------------------------------------------------------------------
  // Contexts

  /** A menu that is closed stays closed. */
  predicate KeepsClosed(c: Contexts, c': Contexts) {
    (c.palette.None? ==> c'.palette.None?) && (c.result.None? ==> c'.result.None?)
  }

  lemma PresentFacts(c: Contexts, ic: Option<Context>)
    requires ContextsOk(c) && c.Alive(ic)
    ensures var c' := c.Present(ic);
            && ContextsOk(c') && c' == c.(palette := c'.palette, result := c'.result) && KeepsClosed(c, c')
            && (ic.Some? ==> c'.palette.None? && c'.result.None?)
    ensures var c' := c.DismissMenus();
            ContextsOk(c') && c' == c.(palette := None, result := None)
  {
  }

  lemma ShowFacts(c: Contexts, ic: Context)
    requires ContextsOk(c) && ic in c.live
    ensures var c' := c.MoveTo(ic).ShowStatus(ic);
            ContextsOk(c') && c'.status == Some(ic) && c'.live == c.live && c'.palette.None? && c'.result.None?
  {
    hide ContextsOk, Contexts.Present, Contexts.Alive;
    var c1 := c.(lastActive := Some(ic));
    StoreFacts(c, ic);
    PresentFacts(c1, c1.status);
    var c2 := c.MoveTo(ic);
    StoreFacts(c2, ic);
    AliveSome(c2, ic);
    PresentFacts(c2.(status := Some(ic)), Some(ic));
  }

  lemma StoreFacts(c: Contexts, ic: Context)
    requires ContextsOk(c) && ic in c.live
    ensures var c' := c.(lastActive := Some(ic)); ContextsOk(c') && c'.Alive(c'.status)
    ensures ContextsOk(c.(status := Some(ic))) && ContextsOk(c.(status := None))
  {
  }

  lemma AliveSome(c: Contexts, ic: Context)
    requires ic in c.live
    ensures c.Alive(Some(ic)) && c.(status := Some(ic)).Alive(Some(ic))
  {
  }

  // ---------------------------------------------------------------------------------------------
  // Polling

  lemma InvalidatedFacts(p: Polling, inSession: bool)
    requires PollingOk(p, inSession)
    ensures PollingOk(p.Invalidated(), inSession) && PollingOk(p.Invalidated().NewStart(), inSession)
    ensures PollingOk(p.Invalidated().NewSignal(), inSession) && PollingOk(p.Invalidated().NewEpoch(), inSession)
  {
  }

  /** A session that begins finds no request pending. */
  lemma SessionBegins(p: Polling, inSession: bool)
    requires PollingOk(p, inSession)
    ensures PollingOk((if inSession then p else p.NewEpoch()).WithTimer(true), true)
  {
  }

  lemma SessionEnds(p: Polling, inSession: bool)
    requires PollingOk(p, inSession)
    ensures PollingOk(p.Stopped(), false) && PollingOk(p.NewEpoch().Stopped(), false)
  {
  }

  // ---------------------------------------------------------------------------------------------
  // Phases of a session

  /** Showing a session of any phase. */
  lemma ShowSessionKeeps(v: Engine, c: Contexts, s: Session)
    requires Core(v) && s.ic in c.live && ContextsOk(c) && v.ctx == c.MoveTo(s.ic)
    ensures var v' := EnsureStatusSync(WithSession(v, s));
            && Core(v') && v'.ctx.live == c.live && v' == v.(session := Some(s), ctx := v'.ctx, poll := v'.poll)
  {
    hide PollingOk, ContextsOk, Contexts.MoveTo, Contexts.ShowStatus;
    ShowFacts(c, s.ic);
    SessionBegins(v.poll, v.session.Some?);
  }

  lemma MoveFacts(c: Contexts, ic: Context)
    requires ContextsOk(c) && ic in c.live
    ensures ContextsOk(c.MoveTo(ic)) && c.MoveTo(ic).status == c.status && c.MoveTo(ic).live == c.live && KeepsClosed(c, c.MoveTo(ic))
  {
  }

  lemma PendingStartKeeps(v: Engine, ic: Context, trigger: Key, commandMode: bool, env: Env)
    requires Core(v) && ic in v.ctx.live
    ensures var v' := EnterPendingStart(v, ic, trigger, commandMode, env);
            && Core(v') && StopSafe(v') && v'.notYetBusy && v'.ctx.live == v.ctx.live
            && v'.session.Some? && v'.session.value.phase.PendingStart?
  {
    hide PollingOk, ContextsOk, Contexts.MoveTo, EnsureStatusSync, WithSession, Polling.Invalidated, Polling.NewStart;
    var w := v.(ctx := v.ctx.MoveTo(ic), poll := v.poll.Invalidated().NewStart(), notYetBusy := true);
    var s := if w.session.Some? then w.session.value else Session(PendingStart, ic, trigger, commandMode, false, true, false);
    MoveFacts(v.ctx, ic);
    InvalidatedFacts(v.poll, v.session.Some?);
    ShowSessionKeeps(w, v.ctx, s.(phase := PendingStart, ic := ic, trigger := trigger, commandMode := commandMode, rawPrev := env.sceneRawPrev));
  }

  lemma RecordingKeeps(v: Engine, ic: Context, trigger: Key, commandMode: bool, env: Env)
    requires Core(v) && ic in v.ctx.live
    ensures var v' := EnterRecording(v, ic, trigger, commandMode, env);
            && Core(v') && v'.ctx.live == v.ctx.live && v'.session.Some? && v'.session.value.phase.Recording?
            && (v'.notYetBusy ==> v.notYetBusy && v.session.Some?)
            && (StopSafe(v) ==> StopSafe(v'))
  {
    hide PollingOk, ContextsOk, Contexts.MoveTo, EnsureStatusSync, WithSession;
    var w := v.(ctx := v.ctx.MoveTo(ic), notYetBusy := v.session.Some? && v.notYetBusy);
    var s := if w.session.Some? then w.session.value else Session(PendingStart, ic, trigger, commandMode, false, env.sceneRawPrev, false);
    MoveFacts(v.ctx, ic);
    ShowSessionKeeps(w, v.ctx, s.(phase := Recording, ic := ic, trigger := trigger, commandMode := commandMode));
  }

  lemma BusyKeeps(v: Engine, ic: Context, commandMode: bool, postprocessing: bool, rawPrev: bool)
    requires Core(v) && ic in v.ctx.live
    ensures var v' := EnterBusy(v, ic, commandMode, postprocessing, rawPrev);
            Core(v') && !v'.notYetBusy && v'.ctx.live == v.ctx.live && v'.session.Some?
  {
    hide PollingOk, ContextsOk, Contexts.MoveTo, EnsureStatusSync, WithSession;
    var w := v.(ctx := v.ctx.MoveTo(ic), notYetBusy := false);
    var s := if w.session.Some? then w.session.value else Session(PendingStart, ic, None, commandMode, false, rawPrev, false);
    MoveFacts(v.ctx, ic);
    ShowSessionKeeps(w, v.ctx, s.(phase := if postprocessing then Postprocessing else Inferring, ic := ic, trigger := None,
                                  commandMode := commandMode, rawPrev := rawPrev));
  }

  lemma FinishKeeps(v: Engine, fallback: Option<Context>)
    requires Core(v) && v.ctx.Alive(fallback)
    ensures var v' := FinishSession(v, fallback);
            Core(v') && !v'.notYetBusy && v'.ctx.live == v.ctx.live && v'.session.None?
  {
    hide PollingOk, Contexts.Present, Polling.Stopped, Polling.Invalidated, Polling.NewEpoch;
    var ic := if v.session.Some? then Some(v.session.value.ic) else if fallback.Some? then fallback else v.ctx.status;
    var ctx := if v.ctx.status == ic then v.ctx.(status := None) else v.ctx;
    PresentFacts(ctx, ic);
    InvalidatedFacts(v.poll, v.session.Some?);
    SessionEnds(v.poll.Invalidated(), v.session.Some?);
  }

  lemma ApplyKeeps(v: Engine, status: Status, fallback: Option<Context>, preferCommand: bool, env: Env)
    requires Core(v) && v.ctx.Alive(fallback) && StopSafe(v)
    ensures var v' := ApplyStatus(v, status, fallback, preferCommand, env);
            Core(v') && StopSafe(v') && v'.ctx.live == v.ctx.live && (v'.notYetBusy ==> v.notYetBusy)
  {
    hide EnterRecording, EnterBusy, FinishSession, PollingOk, StopOk;
    var ic := ResolveInputContext(v, fallback);
    if ic.Some? {
      var commandMode := if v.session.Some? then v.session.value.commandMode else preferCommand;
      var rawPrev := if v.session.Some? then v.session.value.rawPrev else env.sceneRawPrev;
      RecordingKeeps(v, ic.value, if v.session.Some? then v.session.value.trigger else None, commandMode, env);
      BusyKeeps(v, ic.value, commandMode, false, rawPrev);
      BusyKeeps(v, ic.value, commandMode, true, rawPrev);
      FinishKeeps(v, ic);
      NotBusyStop(EnterBusy(v, ic.value, commandMode, false, rawPrev));
      NotBusyStop(EnterBusy(v, ic.value, commandMode, true, rawPrev));
      NotBusyStop(FinishSession(v, ic));
    }
  }

  lemma NotBusyStop(v: Engine)
    ensures !v.notYetBusy ==> StopSafe(v)
  {
  }

  // ---------------------------------------------------------------------------------------------
  // Recording

  /** Stopping a recording makes the session busy, and otherwise changes nothing. */
  lemma FinishStopKeeps(v: Engine, env: Env)
    requires Core(v)
    ensures var v' := FinishStop(v, env);
            && Core(v') && v'.ctx.live == v.ctx.live
            && (IsRecording(v) ==> !v'.notYetBusy && v'.session.Some?)
            && (!IsRecording(v) ==> v' == v)
  {
    hide EnterBusy;
    if IsRecording(v) {
      var w := ReloadSceneConfig(v, env);
      BusyKeeps(w, w.session.value.ic, w.session.value.commandMode, false, env.sceneRawPrev);
    }
  }

  lemma StartKeeps(v: Engine, ic: Context, trigger: Key, isCommand: bool, env: Env)
    requires Core(v) && ic in v.ctx.live && !v.notYetBusy
    ensures var v' := StartVoiceRecording(v, ic, trigger, isCommand, env);
            && Core(v') && v'.ctx.live == v.ctx.live
            && (v'.notYetBusy ==> v'.session.Some? && v'.session.value.phase.PendingStart?)
  {
    hide EnterRecording, EnterBusy, FinishSession, RequestStart, ApplyStatus, PollingOk, FinishStop;
    var w := CancelPendingStop(DismissMenus(v));
    if !isCommand && w.session.None? && w.daemon.lastStatus.StatusRecording? {
      RecordingKeeps(w, ic, trigger, false, env);
      FinishStopKeeps(EnterRecording(w, ic, trigger, false, env), env);
    } else if !w.daemon.lastStatus.StatusEmpty? && !w.daemon.lastStatus.StatusIdle? {
      ApplyKeeps(w, w.daemon.lastStatus, Some(ic), isCommand, env);
    } else if isCommand && !env.commandReady {
      FinishKeeps(w, Some(ic));
      PresentKeeps(FinishSession(w, Some(ic)), Some(ic));
    } else if isCommand && !env.hasSelection {
      FinishKeeps(w, Some(ic));
      PresentKeeps(w, Some(ic));
      PresentKeeps(Present(w, Some(ic)), Some(ic));
      PresentKeeps(FinishSession(w, Some(ic)), Some(ic));
    } else {
      RequestStartKeeps(w, ic, trigger, isCommand, env);
    }
  }

  lemma RequestStartKeeps(v: Engine, ic: Context, trigger: Key, isCommand: bool, env: Env)
    requires Core(v) && ic in v.ctx.live
    ensures var v' := RequestStart(v, ic, trigger, isCommand, env);
            && Core(v') && v'.ctx.live == v.ctx.live
            && (v'.notYetBusy ==> v'.session.Some? && v'.session.value.phase.PendingStart?)
  {
    hide FinishSession, EnterPendingStart, PollingOk;
    PendingStartKeeps(v, ic, trigger, isCommand, env);
    var started := EnterPendingStart(v, ic, trigger, isCommand, env);
    var called := AfterCall(FlushContextBuffer(started), env);
    FinishKeeps(called, Some(ic));
    PresentKeeps(FinishSession(called, Some(ic)), Some(ic));
  }

  lemma PresentKeeps(v: Engine, ic: Option<Context>)
    requires Core(v) && v.ctx.Alive(ic)
    ensures var v' := Present(v, ic); Core(v') && v'.ctx.live == v.ctx.live && v' == v.(ctx := v'.ctx)
  {
    hide PollingOk, ContextsOk, Contexts.Present;
    PresentFacts(v.ctx, ic);
  }

  lemma StartAndMarkKeeps(v: Engine, ic: Context, trigger: Key, isCommand: bool, stopOnRelease: bool, env: Env)
    requires Core(v) && ic in v.ctx.live && !v.notYetBusy
    ensures var v' := StartAndMark(v, ic, trigger, isCommand, stopOnRelease, env); Inv(v') && v'.ctx.live == v.ctx.live
  {
    hide StartVoiceRecording;
    StartKeeps(v, ic, trigger, isCommand, env);
  }

  lemma CancelKeeps(v: Engine)
    requires Core(v) && v.session.Some?
    ensures var v' := CancelSession(v); Core(v') && !v'.notYetBusy && v'.ctx.live == v.ctx.live && v'.session.None?
  {
    hide FinishSession;
    var ic := Some(v.session.value.ic);
    FinishKeeps(v, ic);
    PresentKeeps(FinishSession(v, ic), ic);
  }

  // ---------------------------------------------------------------------------------------------
  // Keys

  lemma OtherKeyKeeps(v: Engine)
    requires Inv(v)
    ensures Inv(OtherKeyPressed(v))
  {
    hide CancelSession;
    var w := CancelPendingStart(v.(keys := v.keys.(chordInterrupted := true)));
    if w.session.Some? { CancelKeeps(w); }
  }

  lemma PressKeeps(v: Engine, k: Keystroke, env: Env)
    requires Inv(v) && k.ic in v.ctx.live
    ensures Inv(HotkeyPressed(v, k, env))
  {
    hide CancelSession, StartAndMark, FinishStop;
    var v1 := v.(keys := v.keys.(lastTriggerTime := env.now));
    var v2 := CancelPendingStop(DismissMenus(v1));
    assert Core(v2);
    if v2.session.Some? {
      CancelKeeps(v2);
    }
    FinishStopKeeps(v2, env);
    if !v2.notYetBusy { NewPressKeeps(v2, k, env); }
    if !IsVoice(k.role) { MenuPressKeeps(v, k, env); }
  }

  lemma NewPressKeeps(v: Engine, k: Keystroke, env: Env)
    requires Core(v) && k.ic in v.ctx.live && !v.notYetBusy
    ensures Inv(NewPress(v, k, env))
  {
    hide StartAndMark;
    var w := v.(keys := v.keys.(heldSym := Some(k.sym), heldRole := k.role, chordInterrupted := false, heldPressTime := env.now));
    StartAndMarkKeeps(w, k.ic, k.matched, k.role.RoleCommand?, true, env);
  }

  lemma MenuPressKeeps(v: Engine, k: Keystroke, env: Env)
    requires Inv(v) && !IsVoice(k.role)
    ensures Inv(NewPress(v, k, env))
  {
    hide StartAndMark;
  }

  lemma HoldEndedKeeps(v: Engine, k: Keystroke, role: Role, env: Env)
    requires Inv(v) && k.ic in v.ctx.live
    ensures Inv(HoldEnded(v, k, role, env))
  {
    hide StartAndMark;
    if v.session.None? {
      StartAndMarkKeeps(v, k.ic, k.matched, k.role.RoleCommand?, false, env);
    }
  }

  lemma ReleaseKeeps(v: Engine, k: Keystroke, env: Env)
    requires Inv(v) && k.ic in v.ctx.live
    ensures Inv(HotkeyReleased(v, k, env))
  {
    hide HoldEnded;
    var w := v.(keys := v.keys.(heldRole := RoleNone, heldSym := None));
    HoldEndedKeeps(w, k, v.keys.heldRole, env);
    TriggerReleasedKeeps(HoldEnded(w, k, v.keys.heldRole, env), k);
    TriggerReleasedKeeps(v, k);
  }

  lemma TriggerReleasedKeeps(v: Engine, k: Keystroke)
    requires Inv(v)
    ensures Inv(TriggerReleased(v, k))
  {
  }

  /** A menu that is open may close on the key before anything else happens; during a session there is none. */
  lemma MenusKeep(v: Engine, env: Env)
    requires Inv(v)
    ensures var w := AfterMenus(v, env);
            && Inv(w) && w == v.(ctx := w.ctx, daemon := w.daemon) && w.ctx.live == v.ctx.live
            && (v.session.Some? ==> w == v && !MenuConsumes(v, env))
  {
    hide PollingOk, PaletteActs, StopOk, KeysOk;
    PaletteActsKeeps(v.(ctx := v.ctx.HidePalette()), env);
    PaletteActsKeeps(v.(ctx := v.ctx.HideResult().HidePalette()), env);
  }

  lemma RemembersKeeps(v: Engine, ic: Context)
    requires Inv(v) && ic in v.ctx.live
    ensures Inv(v.(ctx := v.ctx.(lastActive := Some(ic))))
  {
    hide PollingOk, StopOk, KeysOk;
  }

  lemma PaletteActsKeeps(v: Engine, env: Env)
    ensures var v' := PaletteActs(v, env); v' == v.(daemon := v'.daemon) && (Inv(v) ==> Inv(v'))
  {
    hide SessionOk, ContextsOk, PollingOk, StopOk, MenusOk, KeysOk;
  }

  lemma PendingReleaseKeeps(v: Engine, k: Keystroke)
    requires Inv(v)
    ensures Inv(v.(keys := v.keys.(pendingRelease := None))) && Inv(v.(keys := v.keys.(pendingRelease := Some(k.sym))))
  {
    hide SessionOk, ContextsOk, PollingOk, StopOk, MenusOk;
  }

  lemma KeyKeeps(v: Engine, k: Keystroke, env: Env)
    requires Inv(v) && k.ic in v.ctx.live
    ensures Inv(OnKey(v, k, env))
  {
    hide HotkeyPressed, HotkeyReleased, OtherKeyPressed, Core, StopOk, AfterMenus, MenuConsumes;
    var v1 := v.(ctx := v.ctx.(lastActive := Some(k.ic)));
    RemembersKeeps(v, k.ic);
    PendingReleaseKeeps(v1, k);
    MenusKeep(v1, env);
    var w := AfterMenus(v1, env);
    OtherKeyKeeps(w);
    ReleaseKeeps(w, k, env);
    PressKeeps(w, k, env);
  }

  // ---------------------------------------------------------------------------------------------
  // Contexts, timers, replies and signals

  lemma DestroyedKeeps(v: Engine, ic: Context)
    requires Inv(v)
    ensures Inv(OnDestroyed(v, ic))
  {
  }

  lemma FocusOutKeeps(v: Engine, ic: Context)
    requires Inv(v)
    ensures Inv(OnFocusOut(v, ic))
  {
    hide CancelSession;
    var w := v.(keys := v.keys.(heldSym := None, heldRole := RoleNone, chordInterrupted := true));
    if w.session.Some? { CancelKeeps(w); }
  }

  lemma SyncTimerKeeps(v: Engine, env: Env)
    requires Inv(v) && v.poll.calls.timer
    ensures Inv(OnSyncTimer(v, env))
  {
  }

  lemma StatusReplyKeeps(v: Engine, id: nat, ok: bool, status: Status, env: Env)
    requires Inv(v)
    ensures Inv(OnStatusReply(v, id, ok, status, env))
  {
    hide ApplyStatus;
    if id in v.poll.calls.inFlight {
      var w := v.(poll := v.poll.Replied(id));
      assert Inv(w);
      ApplyKeeps(w.(daemon := w.daemon.(blockedUntil := 0, lastStatus := status, polledIdleSince := None)), status, None, false, env);
    }
  }

  lemma CallReplyKeeps(v: Engine, ok: bool, env: Env)
    requires Inv(v)
    ensures Inv(OnCallReply(v, ok, env))
  {
    hide FinishSession;
    var ic := ResolveInputContext(v, None);
    FinishKeeps(NoteFailure(v, env), ic);
    PresentKeeps(FinishSession(NoteFailure(v, env), ic), ic);
  }

  lemma StatusChangedKeeps(v: Engine, status: Status, env: Env)
    requires Inv(v)
    ensures Inv(OnStatusChanged(v, status, env))
  {
    hide ApplyStatus;
    var w := v.(poll := v.poll.Invalidated().NewSignal(), daemon := v.daemon.(lastStatus := status, polledIdleSince := None));
    var ic := ResolveInputContext(w, None);
    ApplyKeeps(if ic.Some? then w.(ctx := w.ctx.(lastActive := ic)) else w, status, None, false, env);
  }

  lemma PartialKeeps(v: Engine)
    requires Inv(v)
    ensures Inv(OnPartial(v))
  {
    hide EnterBusy, Present;
    var ic := ResolveInputContext(v, None);
    var w := v.(ctx := v.ctx.(lastActive := ic));
    if ic.Some? && v.session.Some? {
      BusyKeeps(w, ic.value, w.session.value.commandMode, true, w.session.value.rawPrev);
      PresentKeeps(w, ic);
    }
  }

  lemma ResultKeeps(v: Engine, menu: bool)
    requires Inv(v)
    ensures Inv(OnResult(v, menu))
  {
    hide FinishSession;
    var ic := ResolveInputContext(v, None);
    if ic.Some? {
      FinishKeeps(v.(ctx := v.ctx.(lastActive := ic)), ic);
    }
  }

  lemma HandleKeeps(v: Engine, e: Event, env: Env)
    requires Inv(v)
    ensures Inv(Handle(v, e, env))
  {
    hide OnKey, OnDestroyed, OnFocusOut, OnSyncTimer, OnStatusReply, OnCallReply, OnStatusChanged, OnPartial, OnResult, FinishStop;
    if Delivered(v, e) {
      match e
      case KeyEvent(k) => KeyKeeps(v, k, env);
      case Destroyed(ic) => DestroyedKeeps(v, ic);
      case FocusOut(ic) => FocusOutKeeps(v, ic);
      case StopTimerFires => FinishStopKeeps(v.(stopTimer := false), env);
      case SyncTimerFires => SyncTimerKeeps(v, env);
      case StatusReply(id, ok, status) => StatusReplyKeeps(v, id, ok, status, env);
      case StartReply(ok) => CallReplyKeeps(v, ok, env);
      case StopReply(ok) => CallReplyKeeps(v, ok, env);
      case StatusChanged(status) => StatusChangedKeeps(v, status, env);
      case Partial => PartialKeeps(v);
      case Result(menu) => ResultKeeps(v, menu);
      case _ =>
    }
  }

  lemma {:induction false} RunKeeps(v: Engine, events: seq<(Event, Env)>)
    requires Inv(v)
    ensures Inv(Run(v, events))
    decreases |events|
  {
    hide Inv, Handle;
    if events != [] {
      RunKeeps(v, events[..|events| - 1]);
      HandleKeeps(Run(v, events[..|events| - 1]), events[|events| - 1].0, events[|events| - 1].1);
    }
  }

  // ---------------------------------------------------------------------------------------------
  // The claims, for every sequence of events and every daemon

  /** A session exists exactly when a status context does, on the same context; no destroyed context is stored or touched. */
  lemma ContextsStayAlive(mode: TriggerMode, events: seq<(Event, Env)>)
    ensures var v := Run(New(mode), events);
            && (v.session.Some? <==> v.ctx.status.Some?) && (v.session.Some? ==> v.ctx.status == Some(v.session.value.ic))
            && !v.ctx.usedDead
            && (forall ic :: Some(ic) in {v.ctx.status, v.ctx.lastActive, v.ctx.palette, v.ctx.result, v.ctx.buffer} ==> ic in v.ctx.live)
  {
    RunKeeps(New(mode), events);
  }

  /**
    A status reply is acted on only if its request was issued inside the still-running session, with no
    status signal and no new pending start since; no other request is active.
   */
  lemma OnlyCurrentReplies(mode: TriggerMode, events: seq<(Event, Env)>, id: nat)
    requires ActsOnReply(Run(New(mode), events), id)
    ensures var v := Run(New(mode), events);
            && v.session.Some? && id in v.poll.calls.issued && v.poll.calls.issued[id] == v.poll.calls.stamp
            && (forall other :: other in v.poll.calls.inFlight && v.poll.gate.IsActive(v.poll.calls.inFlight[other]) ==> other == id)
  {
    RunKeeps(New(mode), events);
  }

  /** Any other reply leaves everything but the polling as it was. */
  lemma StaleRepliesIgnored(mode: TriggerMode, events: seq<(Event, Env)>, id: nat, ok: bool, status: Status, env: Env)
    requires !ActsOnReply(Run(New(mode), events), id)
    ensures var v := Run(New(mode), events);
            var v' := Handle(v, StatusReply(id, ok, status), env);
            v' == v.(poll := v'.poll) && v'.poll.calls.stamp == v.poll.calls.stamp && v'.poll.calls.timer == v.poll.calls.timer
  {
    hide Run;
  }

  /**
    The gate never gets stuck: while a request is pending the slot holds its callback, and any reply to it
    reopens the gate; an open gate lets the next tick of the timer, armed as long as there is a session, ask again.
   */
  lemma GateReopens(mode: TriggerMode, events: seq<(Event, Env)>, ok: bool, status: Status, env: Env)
    ensures var v := Run(New(mode), events);
            && (v.session.Some? <==> v.poll.calls.timer)
            && (v.poll.gate.active ==>
                  && v.poll.calls.slot == Some(v.poll.gate.requestId) && v.poll.gate.requestId in v.poll.calls.inFlight && v.session.Some?
                  && !Handle(v, StatusReply(v.poll.gate.requestId, ok, status), env).poll.gate.active)
            && (!v.poll.gate.active && v.session.Some? && CanCall(v, env) ==>
                  var v' := Handle(v, SyncTimerFires, env);
                  v'.poll.gate.active && ActsOnReply(v', v'.poll.gate.requestId))
  {
    RunKeeps(New(mode), events);
    var v := Run(New(mode), events);
    hide Run, UseStatusReply, OnStatusReply;
    if v.poll.gate.active {
      ReplyCloses(v, ok, status, env);
    }
  }

  lemma ReplyCloses(v: Engine, ok: bool, status: Status, env: Env)
    requires Inv(v) && v.poll.gate.active
    ensures !OnStatusReply(v, v.poll.gate.requestId, ok, status, env).poll.gate.active
  {
    hide ContextsOk, StopOk, ApplyStatus;
    var w := v.(poll := v.poll.Replied(v.poll.gate.requestId));
    assert !w.poll.gate.active;
    ApplyKeepsClosed(w.(daemon := w.daemon.(blockedUntil := 0, lastStatus := status, polledIdleSince := None)), status, env);
  }

  lemma ApplyKeepsClosed(v: Engine, status: Status, env: Env)
    requires !v.poll.gate.active
    ensures !ApplyStatus(v, status, None, false, env).poll.gate.active
  {
    hide Contexts.MoveTo, Contexts.Present, Contexts.ShowStatus;
  }

  /** No stuck push-to-talk: until a session first turns busy, recording with the trigger released has the stop timer armed. */
  lemma ReleaseStopsRecording(mode: TriggerMode, events: seq<(Event, Env)>)
    ensures var v := Run(New(mode), events);
            v.notYetBusy && v.session.Some? && v.session.value.phase.Recording? && v.session.value.stopOnRelease && v.session.value.triggerReleased ==>
              v.stopTimer
  {
    RunKeeps(New(mode), events);
  }

  /** The armed timer ends the recording: when it fires the session turns busy, on the same context. */
  lemma StopTimerEndsRecording(v: Engine, env: Env)
    requires Inv(v) && IsRecording(v) && v.stopTimer
    ensures var v' := Handle(v, StopTimerFires, env);
            && v'.session.Some? && v'.session.value.phase.Inferring? && v'.session.value.ic == v.session.value.ic
            && !v'.stopTimer && !v'.notYetBusy
  {
    hide PollingOk, ContextsOk, Contexts.MoveTo, Contexts.ShowStatus, Polling.NewEpoch;
  }
}
