/** ScanActivity: the single-shot variant of the capture screen. It extends CaptureActivity
    by overriding onResume and handleDecode; here the subclass holds its base part as
    `base` and each override calls the base behaviour first, as `super` does. */
module Scan {
  import opened Barcode
  import opened Capture

  /** ScanActivity declares its own copy of the result extra's key. */
  const ScanExtraScanResult: string := "scan_result"

  /** The subclass's result: RESULT_OK with the text under its own key, then finish. */
  function ScanSuccessEffects(result: DecodeResult): seq<Effect>
  {
    [SetResult(ResultOk, Some(Extra(ScanExtraScanResult, result.text))), Finish]
  }

  /** onResume: the base resume, then always a restart request after 500 ms. */
  function AfterScanResume(s: CaptureState, rotation: int, landscape: bool, outcome: CameraOutcome): (t: CaptureState)
    ensures |s.log| < |t.log| && t.log[..|s.log|] == s.log
    ensures var b := AfterResume(s, rotation, landscape, outcome);
      && SameFlags(b, t) && t.savedResultToShow == b.savedResultToShow
      && t.log[|t.log| - 1] == ResetStatusView
    ensures var b := AfterResume(s, rotation, landscape, outcome);
      OnlyLogged(b, t, (if b.handler then [SendRestartPreview(RestartDelayMs)] else []) + [ResetStatusView])
  {
    var b := AfterResume(s, rotation, landscape, outcome);
    var t := AfterRestartPreview(b, RestartDelayMs);
    assert t.log[..|s.log|] == t.log[..|b.log|][..|s.log|];
    t
  }

  /** handleDecode: the base handling first; then a non-null result always ends the
      screen with RESULT_OK and its text, and a null result always asks for a restart. */
  function AfterScanDecode(s: CaptureState, rawResult: Option<DecodeResult>, live: bool): (t: CaptureState)
    ensures |s.log| + 2 <= |t.log| && t.log[..|s.log|] == s.log
    ensures SameFlags(s, t) && t.savedResultToShow == s.savedResultToShow
    ensures rawResult.Some? ==> t.log[|t.log| - 2..] == ScanSuccessEffects(rawResult.value)
    ensures rawResult.None? ==> t.log[|t.log| - 1] == ResetStatusView
    ensures var b := AfterDecode(s, rawResult, live);
      && (rawResult.Some? ==> OnlyLogged(b, t, ScanSuccessEffects(rawResult.value)))
      && (rawResult.None? ==>
            OnlyLogged(b, t, (if s.handler then [SendRestartPreview(RestartDelayMs)] else []) + [ResetStatusView]))
  {
    var b := AfterDecode(s, rawResult, live);
    var t := if rawResult.Some? then b.(log := b.log + ScanSuccessEffects(rawResult.value))
             else AfterRestartPreview(b, RestartDelayMs);
    assert t.log[..|s.log|] == t.log[..|b.log|][..|s.log|];
    t
  }

  /** The restart requested by onResume reaches a handler only when the surface survived
      the pause and the camera and its handler both started; otherwise it only resets the
      status view. */
  lemma ScanResumeRestartNeedsSurface(s: CaptureState, rotation: int, landscape: bool, outcome: CameraOutcome)
    ensures var t := AfterScanResume(s, rotation, landscape, outcome);
      multiset(NewEffects(s, t))[SendRestartPreview(RestartDelayMs)] ==
        if s.hasSurface && outcome == OpenSucceeds then 1 else 0
  {
    var b := AfterResume(s, rotation, landscape, outcome);
    var t := AfterRestartPreview(b, RestartDelayMs);
    assert t == AfterScanResume(s, rotation, landscape, outcome);
    assert b.handler == (s.hasSurface && outcome == OpenSucceeds);
    ResumeSendsNoRestart(s, rotation, landscape, outcome);
    assert NewEffects(s, t) == NewEffects(s, b) + NewEffects(b, t);
    RestartsAfter(NewEffects(s, b), NewEffects(b, t), b.handler);
  }

  /** Counting the restart messages of a restart request that follows effects without any. */
  lemma RestartsAfter(before: seq<Effect>, request: seq<Effect>, handler: bool)
    requires SendRestartPreview(RestartDelayMs) !in before
    requires request == (if handler then [SendRestartPreview(RestartDelayMs)] else []) + [ResetStatusView]
    ensures multiset(before + request)[SendRestartPreview(RestartDelayMs)] == if handler then 1 else 0
  {
  }

  /** The base resume itself never asks for a restart. */
  lemma ResumeSendsNoRestart(s: CaptureState, rotation: int, landscape: bool, outcome: CameraOutcome)
    ensures SendRestartPreview(RestartDelayMs) !in NewEffects(s, AfterResume(s, rotation, landscape, outcome))
  {
    var prelude := ResumePrelude(rotation, landscape);
    var r := s.(handler := false, cameraOpen := false, log := s.log + prelude);
    var t := AfterResume(s, rotation, landscape, outcome);
    var rest: seq<Effect>;
    if s.hasSurface {
      var i := AfterInitCamera(r, true, outcome);
      InitCameraCalls(r, true, outcome);
      assert t == i;
      rest := NewEffects(r, i);
    } else {
      rest := [AddSurfaceCallback];
    }
    assert NewEffects(s, t) == prelude + rest;
    NoRestartAfterPrelude(prelude, rest, rotation, landscape);
  }

  /** Neither the resume prelude nor what follows it asks for a restart. */
  lemma NoRestartAfterPrelude(prelude: seq<Effect>, rest: seq<Effect>, rotation: int, landscape: bool)
    requires prelude == ResumePrelude(rotation, landscape)
    requires forall e :: e in rest ==> InitCall(e) || e == AddSurfaceCallback
    ensures SendRestartPreview(RestartDelayMs) !in prelude + rest
  {
  }

  /** A non-null result ends the screen with RESULT_OK and its text whether or not a
      bitmap came with it, and no restart is requested. */
  lemma ScanSuccessEndsSession(s: CaptureState, result: DecodeResult, live: bool)
    ensures var t := AfterScanDecode(s, Some(result), live);
      && NewEffects(s, t)[|NewEffects(s, t)| - 2..] ==
           [SetResult(ResultOk, Some(Extra("scan_result", result.text))), Finish]
      && SendRestartPreview(RestartDelayMs) !in NewEffects(s, t)
      && (!live ==> PlayBeepAndVibrate !in NewEffects(s, t))
  {
    var t := AfterScanDecode(s, Some(result), live);
    var base := ScanDecodeBase(s, result, live);
    assert NewEffects(s, t) == base + ScanSuccessEffects(result);
    SuccessTail(base, result, live);
  }

  /** The override's result and finish come last, after effects without a restart. */
  lemma SuccessTail(base: seq<Effect>, result: DecodeResult, live: bool)
    requires SendRestartPreview(RestartDelayMs) !in base
    requires !live ==> base == [InactivityActivity]
    ensures var added := base + ScanSuccessEffects(result);
      && added[|added| - 2..] == [SetResult(ResultOk, Some(Extra("scan_result", result.text))), Finish]
      && SendRestartPreview(RestartDelayMs) !in added
      && (!live ==> PlayBeepAndVibrate !in added)
  {
    var added := base + ScanSuccessEffects(result);
    assert added[|added| - 2..] == ScanSuccessEffects(result);
  }

  /** What the base handleDecode appends for a non-null result. */
  lemma ScanDecodeBase(s: CaptureState, result: DecodeResult, live: bool) returns (base: seq<Effect>)
    ensures base == NewEffects(s, AfterDecode(s, Some(result), live))
    ensures AfterScanDecode(s, Some(result), live).log == s.log + base + ScanSuccessEffects(result)
    ensures SendRestartPreview(RestartDelayMs) !in base
    ensures !live ==> base == [InactivityActivity]
  {
    var b := AfterDecode(s, Some(result), live);
    base := NewEffects(s, b);
    if live {
      var drawn := DrawEffects(ResultPoints.ResultPointCommands(Some(result)));
      assert base == [InactivityActivity, PlayBeepAndVibrate] + drawn + SuccessEffects(result);
      assert forall e :: e in drawn ==> e.DrawOnBitmap?;
    }
  }

  /** For a live scan with a result, the subclass's result repeats the one the base class
      already set: the same code, key and text, so the screen ends with the base's data. */
  lemma ScanLiveSuccessRepeatsBaseResult(s: CaptureState, result: DecodeResult)
    ensures var b := AfterDecode(s, Some(result), true);
      var t := AfterScanDecode(s, Some(result), true);
      && b.log[|b.log| - 2..] == SuccessEffects(result)
      && t.log == b.log + SuccessEffects(result)
  {
  }

  /** A null result asks for a restart in the override; on a live scan the base has asked
      for one already, so two restart messages go out when a handler exists. */
  lemma ScanFailureRestarts(s: CaptureState, live: bool)
    ensures var t := AfterScanDecode(s, None, live);
      multiset(NewEffects(s, t))[SendRestartPreview(RestartDelayMs)] ==
        if !s.handler then 0 else if live then 2 else 1
  {
    var b := AfterDecode(s, None, live);
    var t := AfterRestartPreview(b, RestartDelayMs);
    assert t == AfterScanDecode(s, None, live);
    assert DrawEffects(ResultPoints.ResultPointCommands(None)) == [];
    var request := (if s.handler then [SendRestartPreview(RestartDelayMs)] else []) + [ResetStatusView];
    var base := if live then [InactivityActivity, PlayBeepAndVibrate] + request else [InactivityActivity];
    assert NewEffects(s, t) == base + request;
    FailureRestartCount(base, request, s.handler, live);
  }

  /** Counting the restart messages of the base's failure handling and the override's. */
  lemma FailureRestartCount(base: seq<Effect>, request: seq<Effect>, handler: bool, live: bool)
    requires request == (if handler then [SendRestartPreview(RestartDelayMs)] else []) + [ResetStatusView]
    requires base == if live then [InactivityActivity, PlayBeepAndVibrate] + request else [InactivityActivity]
    ensures multiset(base + request)[SendRestartPreview(RestartDelayMs)] ==
      if !handler then 0 else if live then 2 else 1
  {
  }

  /** The single-shot screen: its base part is the capture coordinator. */
  class ScanActivity {
    const base: CaptureActivity

    constructor ()
      ensures fresh(base) && base.State() == Created()
    {
      base := new CaptureActivity();
    }

    method OnResume(rotation: int, landscape: bool, outcome: CameraOutcome)
      modifies base
      ensures base.State() == AfterScanResume(old(base.State()), rotation, landscape, outcome)
    {
      base.OnResume(rotation, landscape, outcome);
      base.RestartPreviewAfterDelay(RestartDelayMs);
    }

    method HandleDecode(rawResult: Option<DecodeResult>, live: bool)
      modifies base
      ensures base.State() == AfterScanDecode(old(base.State()), rawResult, live)
    {
      base.HandleDecode(rawResult, live);
      if rawResult.Some? {
        base.effects := base.effects + [SetResult(ResultOk, Some(Extra(ScanExtraScanResult, rawResult.value.text)))];
        base.effects := base.effects + [Finish];
      } else {
        base.RestartPreviewAfterDelay(RestartDelayMs);
      }
    }
  }
}
