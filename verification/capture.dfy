/** The capture screen's coordinator (CaptureActivity): the lifecycle flags, the
    single-slot mailbox for a decode result that arrives before the decode handler exists,
    the post-decode outcome, and key handling. Calls into the camera driver, the handler,
    the beep/vibrate and inactivity collaborators, the status view and the Activity
    framework are recorded as effects appended to a log, in the order they happen. */
module Capture {
  import opened Barcode
  import opened ResultPoints
  import Orientation

  /** Activity result codes and the result extra's key. */
  const ResultOk: int := -1
  const ResultCanceled: int := 0
  const ExtraScanResult: string := "scan_result"

  /** Key codes (android.view.KeyEvent). */
  const KeycodeBack: int := 4
  const KeycodeVolumeUp: int := 24
  const KeycodeVolumeDown: int := 25
  const KeycodeCamera: int := 27
  const KeycodeFocus: int := 80

  /** The delay, in milliseconds, before the preview is restarted after a failed decode. */
  const RestartDelayMs: int := 500

  /** How an attempt to open the camera and start the decode handler turns out: the
      driver and the handler are outside the model, so this is an input. */
  datatype CameraOutcome =
    | OpenSucceeds
    | OpenThrowsIOException
    | OpenThrowsRuntimeException
    | HandlerThrowsRuntimeException

  /** The extra attached to a result intent: a key and the scanned text. */
  datatype Extra = Extra(key: string, text: string)

  /** One observable call made by the coordinator. */
  datatype Effect =
    | NewCameraManager                     // a fresh, closed CameraManager handed to the viewfinder
    | SetRequestedOrientation(orientation: int)
    | ResetStatusView                      // default prompt shown, status and viewfinder visible
    | EnableBeep                           // beepManager.update(true)
    | StartAmbientLight
    | InactivityResume
    | AddSurfaceCallback
    | OpenDriver                           // openDriver was called (it may throw)
    | CreateHandler                        // a CaptureActivityHandler now exists
    | SendDecodeSucceeded(result: DecodeResult)
    | FrameworkBugNotice                   // the dialog that finishes the screen when dismissed
    | IllegalStateThrown                   // "No SurfaceHolder provided"
    | DisableOrientationDetector
    | QuitHandler                          // quitSynchronously
    | InactivityPause
    | StopAmbientLight
    | CloseBeep
    | CloseDriver
    | RemoveSurfaceCallback
    | InactivityShutdown
    | InactivityActivity
    | PlayBeepAndVibrate
    | DrawOnBitmap(command: DrawCommand)
    | SetResult(code: int, data: Option<Extra>)
    | Finish
    | SendRestartPreview(delayMs: int)
    | SetTorch(on: bool)

  /** The coordinator's state: its flags, the pending-result slot and the effect log. */
  datatype CaptureState = CaptureState(
    hasSurface: bool,
    handler: bool,                // a CaptureActivityHandler exists
    cameraOpen: bool,             // the current CameraManager has its driver open
    callbackRegistered: bool,     // registered as the preview surface's callback
    savedResultToShow: Option<DecodeResult>,
    log: seq<Effect>)

  /** The state right after onCreate. */
  function Created(): (s: CaptureState)
    ensures !s.hasSurface && !s.handler && !s.cameraOpen && !s.callbackRegistered
    ensures s.savedResultToShow.None? && s.log == []
  {
    CaptureState(false, false, false, false, None, [])
  }

  /** Everything but the log is as before, and the log has grown by `added`. */
  predicate OnlyLogged(s: CaptureState, t: CaptureState, added: seq<Effect>)
  {
    t == s.(log := s.log + added)
  }

  /** The four flags are as before. */
  predicate SameFlags(s: CaptureState, t: CaptureState)
  {
    && t.hasSurface == s.hasSurface && t.handler == s.handler
    && t.cameraOpen == s.cameraOpen && t.callbackRegistered == s.callbackRegistered
  }

  /** The effects appended between two states, when the first log is a prefix. */
  function NewEffects(s: CaptureState, t: CaptureState): seq<Effect>
    requires |s.log| <= |t.log|
  {
    t.log[|s.log|..]
  }

  /** decodeOrStoreSavedBitmap: without a handler the slot becomes exactly `result`, null
      included, and nothing is sent; with a handler a non-null result first replaces the
      slot, the slot's content (if any) is sent as one decode-succeeded message, and the
      slot is emptied. */
  function AfterStore(s: CaptureState, result: Option<DecodeResult>): (t: CaptureState)
    ensures !s.handler ==> t == s.(savedResultToShow := result)
    ensures s.handler ==> t.savedResultToShow.None?
    ensures s.handler && result.Some? ==>
      OnlyLogged(s.(savedResultToShow := None), t, [SendDecodeSucceeded(result.value)])
    ensures s.handler && result.None? && s.savedResultToShow.Some? ==>
      OnlyLogged(s.(savedResultToShow := None), t, [SendDecodeSucceeded(s.savedResultToShow.value)])
    ensures s.handler && result.None? && s.savedResultToShow.None? ==> t == s
    ensures SameFlags(s, t)
    ensures |s.log| <= |t.log| <= |s.log| + 1 && t.log[..|s.log|] == s.log
    ensures forall e :: e in NewEffects(s, t) ==> e.SendDecodeSucceeded?
  {
    if !s.handler then
      s.(savedResultToShow := result)
    else
      var pending := if result.Some? then result else s.savedResultToShow;
      var sent := if pending.Some? then [SendDecodeSucceeded(pending.value)] else [];
      assert (s.log + sent)[|s.log|..] == sent;
      s.(savedResultToShow := None, log := s.log + sent)
  }

  /** initCamera: a null holder throws before anything else; an already open camera is
      left alone; otherwise openDriver is called, a handler is created if there is none,
      and the pending slot is flushed. Any failure of the open or of the handler's
      creation takes the same notice-and-exit path. */
  function AfterInitCamera(s: CaptureState, holderPresent: bool, outcome: CameraOutcome): (t: CaptureState)
    ensures !holderPresent ==> OnlyLogged(s, t, [IllegalStateThrown])
    ensures holderPresent && s.cameraOpen ==> t == s
    ensures (holderPresent && !s.cameraOpen &&
             (outcome == OpenThrowsIOException || outcome == OpenThrowsRuntimeException)) ==>
      OnlyLogged(s, t, [OpenDriver, FrameworkBugNotice])
    ensures (holderPresent && !s.cameraOpen && !s.handler && outcome == HandlerThrowsRuntimeException) ==>
      OnlyLogged(s.(cameraOpen := true), t, [OpenDriver, FrameworkBugNotice])
    ensures (holderPresent && !s.cameraOpen &&
             (outcome == OpenSucceeds || (s.handler && outcome == HandlerThrowsRuntimeException))) ==>
      t == s.(cameraOpen := true, handler := true, savedResultToShow := None,
              log := s.log + [OpenDriver] + (if s.handler then [] else [CreateHandler])
                     + (if s.savedResultToShow.Some? then [SendDecodeSucceeded(s.savedResultToShow.value)] else []))
    ensures t.hasSurface == s.hasSurface && t.callbackRegistered == s.callbackRegistered
    ensures t.cameraOpen == (s.cameraOpen || (holderPresent &&
      (outcome == OpenSucceeds || outcome == HandlerThrowsRuntimeException)))
    ensures t.handler == (s.handler || (holderPresent && !s.cameraOpen && outcome == OpenSucceeds))
    ensures |s.log| <= |t.log| && t.log[..|s.log|] == s.log
    ensures t.handler && !s.handler ==> t.savedResultToShow.None?
  {
    if !holderPresent then
      s.(log := s.log + [IllegalStateThrown])
    else if s.cameraOpen then
      s
    else if outcome == OpenThrowsIOException || outcome == OpenThrowsRuntimeException then
      s.(log := s.log + [OpenDriver, FrameworkBugNotice])
    else if !s.handler && outcome == HandlerThrowsRuntimeException then
      s.(cameraOpen := true, log := s.log + [OpenDriver, FrameworkBugNotice])
    else
      var created := if s.handler then [] else [CreateHandler];
      var withDriver := s.(cameraOpen := true, handler := true, log := s.log + [OpenDriver] + created);
      var flushed := AfterStore(withDriver, None);
      assert flushed.cameraOpen && flushed.handler;
      assert outcome.OpenSucceeds? || outcome.HandlerThrowsRuntimeException?;
      flushed
  }

  /** A call initCamera may make. */
  predicate InitCall(e: Effect)
  {
    e.IllegalStateThrown? || e.OpenDriver? || e.CreateHandler? || e.FrameworkBugNotice? || e.SendDecodeSucceeded?
  }

  /** The calls initCamera makes: openDriver is called exactly when a holder is present and
      the camera was closed, a handler is created exactly when one appears, and nothing
      else is called but the exception, the framework-bug notice and the flush of the slot. */
  lemma InitCameraCalls(s: CaptureState, holderPresent: bool, outcome: CameraOutcome)
    ensures var t := AfterInitCamera(s, holderPresent, outcome);
      && (OpenDriver in NewEffects(s, t) <==> holderPresent && !s.cameraOpen)
      && (CreateHandler in NewEffects(s, t) <==> !s.handler && t.handler)
      && forall e :: e in NewEffects(s, t) ==> InitCall(e)
  {
    if !holderPresent || s.cameraOpen || outcome == OpenThrowsIOException || outcome == OpenThrowsRuntimeException
       || (!s.handler && outcome == HandlerThrowsRuntimeException) {
      InitCameraCallsEarly(s, holderPresent, outcome);
    } else {
      InitCameraCallsOpened(s, outcome);
    }
  }

  /** initCamera's early exits: the exception, the open camera, and the failures. */
  lemma InitCameraCallsEarly(s: CaptureState, holderPresent: bool, outcome: CameraOutcome)
    requires !holderPresent || s.cameraOpen || outcome == OpenThrowsIOException || outcome == OpenThrowsRuntimeException
      || (!s.handler && outcome == HandlerThrowsRuntimeException)
    ensures var t := AfterInitCamera(s, holderPresent, outcome);
      && (OpenDriver in NewEffects(s, t) <==> holderPresent && !s.cameraOpen)
      && (CreateHandler in NewEffects(s, t) <==> !s.handler && t.handler)
      && forall e :: e in NewEffects(s, t) ==> InitCall(e)
  {
    var t := AfterInitCamera(s, holderPresent, outcome);
    if !holderPresent {
      assert NewEffects(s, t) == [IllegalStateThrown];
    } else if s.cameraOpen {
      assert NewEffects(s, t) == [];
    } else {
      assert NewEffects(s, t) == [OpenDriver, FrameworkBugNotice];
    }
  }

  /** initCamera when the driver and the handler start: open, create if needed, flush. */
  lemma InitCameraCallsOpened(s: CaptureState, outcome: CameraOutcome)
    requires !s.cameraOpen && (outcome == OpenSucceeds || (s.handler && outcome == HandlerThrowsRuntimeException))
    ensures var t := AfterInitCamera(s, true, outcome);
      && OpenDriver in NewEffects(s, t)
      && (CreateHandler in NewEffects(s, t) <==> !s.handler)
      && t.handler
      && t.savedResultToShow.None?
      && (s.savedResultToShow.Some? ==> SendDecodeSucceeded(s.savedResultToShow.value) in NewEffects(s, t))
      && forall e :: e in NewEffects(s, t) ==> InitCall(e)
  {
    var t := AfterInitCamera(s, true, outcome);
    var created := if s.handler then [] else [CreateHandler];
    var withDriver := s.(cameraOpen := true, handler := true, log := s.log + [OpenDriver] + created);
    var flushed := AfterStore(withDriver, None);
    assert t == flushed;
    var sent := NewEffects(withDriver, flushed);
    assert forall e :: e in sent ==> e.SendDecodeSucceeded?;
    assert NewEffects(s, t) == [OpenDriver] + created + sent;
  }

  /** The calls onResume makes before it looks at the surface. */
  function ResumePrelude(rotation: int, landscape: bool): seq<Effect>
  {
    [NewCameraManager, SetRequestedOrientation(Orientation.CurrentOrientation(rotation, landscape)),
     ResetStatusView, EnableBeep, StartAmbientLight, InactivityResume]
  }

  /** onResume: a fresh (closed) camera manager, the handler reset to null, then the camera
      is initialised at once if the surface survived the pause, and otherwise the screen
      registers for the surface's creation. */
  function AfterResume(s: CaptureState, rotation: int, landscape: bool, outcome: CameraOutcome): (t: CaptureState)
    ensures |s.log| <= |t.log| && t.log[..|s.log|] == s.log
    ensures t.hasSurface == s.hasSurface
    ensures !s.hasSurface ==>
      t == s.(handler := false, cameraOpen := false, callbackRegistered := true,
              log := s.log + ResumePrelude(rotation, landscape) + [AddSurfaceCallback])
    ensures s.hasSurface ==>
      && t.callbackRegistered == s.callbackRegistered
      && t.handler == (outcome == OpenSucceeds)
      && t.cameraOpen == (outcome == OpenSucceeds || outcome == HandlerThrowsRuntimeException)
      && (t.handler ==> t.savedResultToShow.None?)
      && OpenDriver in NewEffects(s, t)
    ensures s.hasSurface ==>
      t == AfterInitCamera(s.(handler := false, cameraOpen := false,
                              log := s.log + ResumePrelude(rotation, landscape)), true, outcome)
  {
    var r := s.(handler := false, cameraOpen := false, log := s.log + ResumePrelude(rotation, landscape));
    if r.hasSurface then
      var initialised := AfterInitCamera(r, true, outcome);
      InitCameraCalls(r, true, outcome);
      assert initialised.log[..|s.log|] == initialised.log[..|r.log|][..|s.log|];
      assert initialised.log[|s.log|..] == ResumePrelude(rotation, landscape) + NewEffects(r, initialised);
      initialised
    else
      r.(callbackRegistered := true, log := r.log + [AddSurfaceCallback])
  }

  /** onPause: the handler is quit and dropped, the collaborators stopped, the camera closed,
      and the surface callback removed only when there is no surface. */
  function AfterPause(s: CaptureState): (t: CaptureState)
    ensures !t.handler && !t.cameraOpen
    ensures t.hasSurface == s.hasSurface && t.savedResultToShow == s.savedResultToShow
    ensures t.callbackRegistered == (s.callbackRegistered && s.hasSurface)
    ensures |s.log| <= |t.log| && t.log[..|s.log|] == s.log
    ensures t.log == s.log + ([DisableOrientationDetector] + (if s.handler then [QuitHandler] else [])
                              + [InactivityPause, StopAmbientLight, CloseBeep, CloseDriver]
                              + (if s.hasSurface then [] else [RemoveSurfaceCallback]))
  {
    var quit := if s.handler then [QuitHandler] else [];
    var removed := if s.hasSurface then [] else [RemoveSurfaceCallback];
    s.(handler := false, cameraOpen := false,
       callbackRegistered := s.callbackRegistered && s.hasSurface,
       log := s.log + ([DisableOrientationDetector] + quit
                       + [InactivityPause, StopAmbientLight, CloseBeep, CloseDriver] + removed))
  }

  /** The calls onPause makes: the handler is quit exactly when one exists, the surface
      callback is removed exactly when there is no surface, and the driver is always closed. */
  lemma PauseCalls(s: CaptureState)
    ensures var t := AfterPause(s);
      && (QuitHandler in NewEffects(s, t) <==> s.handler)
      && (RemoveSurfaceCallback in NewEffects(s, t) <==> !s.hasSurface)
      && CloseDriver in NewEffects(s, t)
  {
    var quit := if s.handler then [QuitHandler] else [];
    var removed := if s.hasSurface then [] else [RemoveSurfaceCallback];
    var added := [DisableOrientationDetector] + quit + [InactivityPause, StopAmbientLight, CloseBeep, CloseDriver] + removed;
    assert NewEffects(s, AfterPause(s)) == added;
    assert QuitHandler in added <==> s.handler;
  }

  /** onDestroy: the inactivity timer is shut down. */
  function AfterDestroy(s: CaptureState): (t: CaptureState)
    ensures OnlyLogged(s, t, [InactivityShutdown])
  {
    s.(log := s.log + [InactivityShutdown])
  }

  /** surfaceCreated: only the first notification sets the flag and initialises the camera;
      a repeated one changes nothing. */
  function AfterSurfaceCreated(s: CaptureState, holderPresent: bool, outcome: CameraOutcome): (t: CaptureState)
    ensures t.hasSurface
    ensures s.hasSurface ==> t == s
    ensures !s.hasSurface ==> t == AfterInitCamera(s.(hasSurface := true), holderPresent, outcome)
  {
    if !s.hasSurface then AfterInitCamera(s.(hasSurface := true), holderPresent, outcome) else s
  }

  /** surfaceDestroyed: clears the surface flag; the camera and handler stay as they are
      until onPause. */
  function AfterSurfaceDestroyed(s: CaptureState): (t: CaptureState)
    ensures !t.hasSurface
    ensures t.(hasSurface := s.hasSurface) == s
  {
    s.(hasSurface := false)
  }

  /** restartPreviewAfterDelay: the delayed restart message goes out only if a handler
      exists; the status view is reset in every case. */
  function AfterRestartPreview(s: CaptureState, delayMs: int): (t: CaptureState)
    ensures s.handler ==> OnlyLogged(s, t, [SendRestartPreview(delayMs), ResetStatusView])
    ensures !s.handler ==> OnlyLogged(s, t, [ResetStatusView])
  {
    s.(log := s.log + (if s.handler then [SendRestartPreview(delayMs)] else []) + [ResetStatusView])
  }

  /** The highlight commands, as effects on the decoded bitmap. */
  function DrawEffects(cmds: seq<DrawCommand>): (e: seq<Effect>)
    ensures |e| == |cmds|
    ensures forall k :: 0 <= k < |cmds| ==> e[k] == DrawOnBitmap(cmds[k])
  {
    seq(|cmds|, k requires 0 <= k < |cmds| => DrawOnBitmap(cmds[k]))
  }

  /** The success outcome for a decode result: RESULT_OK with its text under "scan_result". */
  function SuccessEffects(result: DecodeResult): seq<Effect>
  {
    [SetResult(ResultOk, Some(Extra(ExtraScanResult, result.text))), Finish]
  }

  /** handleDecode: the inactivity timer is told of activity; a live scan (a bitmap was
      supplied) beeps, draws the result points, and then either returns the text and
      finishes (non-null result) or schedules a restart (null result). A call without a
      bitmap does nothing more. */
  function AfterDecode(s: CaptureState, rawResult: Option<DecodeResult>, live: bool): (t: CaptureState)
    ensures !live ==> OnlyLogged(s, t, [InactivityActivity])
    ensures live && rawResult.Some? ==>
      OnlyLogged(s, t, [InactivityActivity, PlayBeepAndVibrate]
                         + DrawEffects(ResultPointCommands(rawResult)) + SuccessEffects(rawResult.value))
    ensures live && rawResult.None? ==>
      OnlyLogged(s, t, [InactivityActivity, PlayBeepAndVibrate]
                         + (if s.handler then [SendRestartPreview(RestartDelayMs)] else []) + [ResetStatusView])
  {
    var a := s.(log := s.log + [InactivityActivity]);
    if !live then a
    else
      var drawn := DrawEffects(ResultPointCommands(rawResult));
      var b := a.(log := a.log + [PlayBeepAndVibrate] + drawn);
      if rawResult.Some? then
        assert b.log + SuccessEffects(rawResult.value)
          == s.log + ([InactivityActivity, PlayBeepAndVibrate] + drawn + SuccessEffects(rawResult.value));
        b.(log := b.log + SuccessEffects(rawResult.value))
      else
        assert drawn == [];
        assert b == s.(log := s.log + [InactivityActivity, PlayBeepAndVibrate]);
        AfterRestartPreview(b, RestartDelayMs)
  }

  /** What onKeyDown does for a key: BACK cancels and finishes (and still defers to the
      framework), FOCUS and CAMERA are swallowed, the volume keys switch the torch. */
  function KeyEffects(keyCode: int): (e: seq<Effect>)
    ensures keyCode == KeycodeBack <==> e == [SetResult(ResultCanceled, None), Finish]
    ensures keyCode == KeycodeVolumeDown <==> e == [SetTorch(false)]
    ensures keyCode == KeycodeVolumeUp <==> e == [SetTorch(true)]
    ensures e == [] <==>
      keyCode !in {KeycodeBack, KeycodeVolumeDown, KeycodeVolumeUp}
  {
    if keyCode == KeycodeBack then [SetResult(ResultCanceled, None), Finish]
    else if keyCode == KeycodeVolumeDown then [SetTorch(false)]
    else if keyCode == KeycodeVolumeUp then [SetTorch(true)]
    else []
  }

  /** Whether onKeyDown consumes the key (returns true) rather than returning the
      framework's answer. */
  function KeyConsumed(keyCode: int): (consumed: bool)
    ensures consumed <==>
      keyCode in {KeycodeFocus, KeycodeCamera, KeycodeVolumeDown, KeycodeVolumeUp}
    ensures keyCode == KeycodeBack ==> !consumed
  {
    keyCode == KeycodeFocus || keyCode == KeycodeCamera
      || keyCode == KeycodeVolumeDown || keyCode == KeycodeVolumeUp
  }

  /** The external events the coordinator reacts to. */
  datatype Event =
    | Resume(rotation: int, landscape: bool, outcome: CameraOutcome)
    | Pause
    | Destroy
    | SurfaceCreated(holderPresent: bool, outcome: CameraOutcome)
    | SurfaceDestroyed
    | Store(result: Option<DecodeResult>)
    | Decode(rawResult: Option<DecodeResult>, live: bool)
    | RestartPreview(delayMs: int)
    | KeyDown(keyCode: int)

  function Apply(s: CaptureState, e: Event): CaptureState
  {
    match e
    case Resume(rotation, landscape, outcome) => AfterResume(s, rotation, landscape, outcome)
    case Pause => AfterPause(s)
    case Destroy => AfterDestroy(s)
    case SurfaceCreated(holderPresent, outcome) => AfterSurfaceCreated(s, holderPresent, outcome)
    case SurfaceDestroyed => AfterSurfaceDestroyed(s)
    case Store(result) => AfterStore(s, result)
    case Decode(rawResult, live) => AfterDecode(s, rawResult, live)
    case RestartPreview(delayMs) => AfterRestartPreview(s, delayMs)
    case KeyDown(keyCode) => s.(log := s.log + KeyEffects(keyCode))
  }

  function Run(s: CaptureState, events: seq<Event>): CaptureState
    decreases events
  {
    if events == [] then s else Run(Apply(s, events[0]), events[1..])
  }

  /** The coordinator's invariant: a handler exists only while the camera is open, and a
      result waits in the slot only while there is no handler to send it to. */
  predicate Consistent(s: CaptureState)
  {
    && (s.handler ==> s.cameraOpen)
    && (s.savedResultToShow.Some? ==> !s.handler)
  }

  /** Every event keeps the invariant and only appends to the log. */
  lemma ApplyPreserves(s: CaptureState, e: Event)
    requires Consistent(s)
    ensures Consistent(Apply(s, e))
    ensures |s.log| <= |Apply(s, e).log| && Apply(s, e).log[..|s.log|] == s.log
  {
  }

  /** From onCreate on, any sequence of events keeps the invariant and the log only grows. */
  lemma {:induction false} RunPreserves(s: CaptureState, events: seq<Event>)
    requires Consistent(s)
    ensures Consistent(Run(s, events))
    ensures |s.log| <= |Run(s, events).log| && Run(s, events).log[..|s.log|] == s.log
    decreases events
  {
    if events != [] {
      ApplyPreserves(s, events[0]);
      RunPreserves(Apply(s, events[0]), events[1..]);
    }
  }

  /** Two results stored before any handler exists, then the camera opens: only the newer
      one is delivered, once, and the slot ends empty. */
  lemma NewerPendingResultWins(s: CaptureState, a: DecodeResult, b: DecodeResult)
    requires !s.handler && !s.cameraOpen
    ensures var t := AfterInitCamera(AfterStore(AfterStore(s, Some(a)), Some(b)), true, OpenSucceeds);
      && t.savedResultToShow.None? && t.handler
      && t.log == s.log + [OpenDriver, CreateHandler, SendDecodeSucceeded(b)]
  {
  }

  /** A live scan with two points and text "ABC123": one beep, one line, one success
      outcome, no restart. */
  lemma LiveScanTwoPointsSucceeds(s: CaptureState, p: ResultPoint, q: ResultPoint, format: BarcodeFormat)
    ensures var raw := DecodeResult("ABC123", Some([Some(p), Some(q)]), format);
      var t := AfterDecode(s, Some(raw), true);
      && t.log == s.log + [InactivityActivity, PlayBeepAndVibrate, DrawOnBitmap(Line(p, q)),
                           SetResult(ResultOk, Some(Extra("scan_result", "ABC123"))), Finish]
      && multiset(t.log)[SendRestartPreview(RestartDelayMs)] == multiset(s.log)[SendRestartPreview(RestartDelayMs)]
  {
    var raw := DecodeResult("ABC123", Some([Some(p), Some(q)]), format);
    var t := AfterDecode(s, Some(raw), true);
    assert ResultPointCommands(Some(raw)) == [Line(p, q)];
    assert DrawEffects([Line(p, q)]) == [DrawOnBitmap(Line(p, q))];
    var added := [InactivityActivity, PlayBeepAndVibrate, DrawOnBitmap(Line(p, q)),
                  SetResult(ResultOk, Some(Extra("scan_result", "ABC123"))), Finish];
    assert t.log == s.log + added;
    NoRestartAdded(s.log, added);
  }

  /** Appending effects without a restart message leaves the restart count unchanged. */
  lemma NoRestartAdded(log: seq<Effect>, added: seq<Effect>)
    requires SendRestartPreview(RestartDelayMs) !in added
    ensures multiset(log + added)[SendRestartPreview(RestartDelayMs)] == multiset(log)[SendRestartPreview(RestartDelayMs)]
  {
  }

  /** A live scan with a null result: no outcome, exactly one restart message if a handler
      exists (none otherwise), and the prompt is reset. */
  lemma LiveScanFailureRestarts(s: CaptureState)
    ensures var t := AfterDecode(s, None, true);
      && multiset(NewEffects(s, t))[SendRestartPreview(RestartDelayMs)] == (if s.handler then 1 else 0)
      && ResetStatusView in NewEffects(s, t)
      && Finish !in NewEffects(s, t)
  {
    var t := AfterDecode(s, None, true);
    assert DrawEffects(ResultPointCommands(None)) == [];
    var restart := if s.handler then [SendRestartPreview(RestartDelayMs)] else [];
    assert NewEffects(s, t) == [InactivityActivity, PlayBeepAndVibrate] + restart + [ResetStatusView];
    FailureEffects(NewEffects(s, t), s.handler);
  }

  /** The effects of a failed live scan, counted. */
  lemma FailureEffects(added: seq<Effect>, handler: bool)
    requires added == [InactivityActivity, PlayBeepAndVibrate]
      + (if handler then [SendRestartPreview(RestartDelayMs)] else []) + [ResetStatusView]
    ensures multiset(added)[SendRestartPreview(RestartDelayMs)] == (if handler then 1 else 0)
    ensures ResetStatusView in added && Finish !in added
  {
  }

  /** The coordinator itself, with the fields the source keeps. */
  class CaptureActivity {
    var hasSurface: bool
    var handler: bool
    var cameraOpen: bool
    var callbackRegistered: bool
    var savedResultToShow: Option<DecodeResult>
    var effects: seq<Effect>

    /** The abstract state the methods are specified against. */
    function State(): CaptureState
      reads this
    {
      CaptureState(hasSurface, handler, cameraOpen, callbackRegistered, savedResultToShow, effects)
    }

    /** onCreate. */
    constructor ()
      ensures State() == Created()
    {
      hasSurface, handler, cameraOpen, callbackRegistered := false, false, false, false;
      savedResultToShow := None;
      effects := [];
    }

    method OnResume(rotation: int, landscape: bool, outcome: CameraOutcome)
      modifies this
      ensures State() == AfterResume(old(State()), rotation, landscape, outcome)
    {
      ghost var s := State();
      effects := effects + [NewCameraManager];
      cameraOpen := false;
      handler := false;
      effects := effects + [SetRequestedOrientation(Orientation.CurrentOrientation(rotation, landscape))];
      effects := effects + [ResetStatusView, EnableBeep, StartAmbientLight, InactivityResume];
      assert State() == s.(handler := false, cameraOpen := false, log := s.log + ResumePrelude(rotation, landscape));
      if hasSurface {
        InitCamera(true, outcome);
      } else {
        callbackRegistered := true;
        effects := effects + [AddSurfaceCallback];
      }
    }

    method InitCamera(holderPresent: bool, outcome: CameraOutcome)
      modifies this
      ensures State() == AfterInitCamera(old(State()), holderPresent, outcome)
    {
      if !holderPresent {
        effects := effects + [IllegalStateThrown];
        return;
      }
      if cameraOpen {
        return;
      }
      effects := effects + [OpenDriver];
      if outcome == OpenThrowsIOException || outcome == OpenThrowsRuntimeException {
        effects := effects + [FrameworkBugNotice];
        return;
      }
      cameraOpen := true;
      if !handler {
        if outcome == HandlerThrowsRuntimeException {
          effects := effects + [FrameworkBugNotice];
          return;
        }
        handler := true;
        effects := effects + [CreateHandler];
      }
      DecodeOrStoreSavedBitmap(None);
    }

    method DecodeOrStoreSavedBitmap(result: Option<DecodeResult>)
      modifies this
      ensures State() == AfterStore(old(State()), result)
    {
      if !handler {
        savedResultToShow := result;
      } else {
        if result.Some? {
          savedResultToShow := result;
        }
        if savedResultToShow.Some? {
          effects := effects + [SendDecodeSucceeded(savedResultToShow.value)];
        }
        savedResultToShow := None;
      }
    }

    method OnPause()
      modifies this
      ensures State() == AfterPause(old(State()))
    {
      ghost var s := State();
      ghost var quit := if handler then [QuitHandler] else [];
      ghost var removed := if hasSurface then [] else [RemoveSurfaceCallback];
      effects := effects + [DisableOrientationDetector];
      if handler {
        effects := effects + [QuitHandler];
        handler := false;
      }
      effects := effects + [InactivityPause, StopAmbientLight, CloseBeep, CloseDriver];
      cameraOpen := false;
      if !hasSurface {
        effects := effects + [RemoveSurfaceCallback];
        callbackRegistered := false;
      }
      assert effects == s.log + ([DisableOrientationDetector] + quit
        + [InactivityPause, StopAmbientLight, CloseBeep, CloseDriver] + removed);
    }

    method OnDestroy()
      modifies this
      ensures State() == AfterDestroy(old(State()))
    {
      effects := effects + [InactivityShutdown];
    }

    /** Returns true when the key is consumed; false stands for "the framework's answer". */
    method OnKeyDown(keyCode: int) returns (consumed: bool)
      modifies this
      ensures State() == old(State()).(log := old(effects) + KeyEffects(keyCode))
      ensures consumed == KeyConsumed(keyCode)
    {
      consumed := false;
      if keyCode == KeycodeBack {
        effects := effects + [SetResult(ResultCanceled, None), Finish];
      } else if keyCode == KeycodeFocus || keyCode == KeycodeCamera {
        consumed := true;
      } else if keyCode == KeycodeVolumeDown {
        effects := effects + [SetTorch(false)];
        consumed := true;
      } else if keyCode == KeycodeVolumeUp {
        effects := effects + [SetTorch(true)];
        consumed := true;
      }
    }

    method SurfaceCreated(holderPresent: bool, outcome: CameraOutcome)
      modifies this
      ensures State() == AfterSurfaceCreated(old(State()), holderPresent, outcome)
    {
      if !hasSurface {
        hasSurface := true;
        InitCamera(holderPresent, outcome);
      }
    }

    method SurfaceDestroyed()
      modifies this
      ensures State() == AfterSurfaceDestroyed(old(State()))
    {
      hasSurface := false;
    }

    /** `live` says whether a bitmap of the decoded frame was supplied. */
    method HandleDecode(rawResult: Option<DecodeResult>, live: bool)
      modifies this
      ensures State() == AfterDecode(old(State()), rawResult, live)
    {
      effects := effects + [InactivityActivity];
      if live {
        effects := effects + [PlayBeepAndVibrate];
        var cmds := DrawResultPoints(rawResult);
        effects := effects + DrawEffects(cmds);
        if rawResult.Some? {
          effects := effects + [SetResult(ResultOk, Some(Extra(ExtraScanResult, rawResult.value.text)))];
          effects := effects + [Finish];
        } else {
          RestartPreviewAfterDelay(RestartDelayMs);
        }
      }
    }

    method RestartPreviewAfterDelay(delayMs: int)
      modifies this
      ensures State() == AfterRestartPreview(old(State()), delayMs)
    {
      if handler {
        effects := effects + [SendRestartPreview(delayMs)];
      }
      effects := effects + [ResetStatusView];
    }
  }
}
