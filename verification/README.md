# ZxingLib capture screen — a Dafny model

This project models the scanning screen of ZxingLib, an Android library built on ZXing.
It covers three classes.

- **CaptureActivity** coordinates the camera, the decode handler and the activity lifecycle.
  The model covers:
  - the `hasSurface` / handler / camera-open flags through `onResume`, `onPause`,
    `onDestroy`, `surfaceCreated`, `surfaceDestroyed` and `initCamera`;
  - the single-slot mailbox `decodeOrStoreSavedBitmap`, which holds a decode result that
    arrives before the decode handler exists. The method is private and its one call site
    (in `initCamera`) passes null, so in this program the slot is never filled. The model's
    `Store` event and the two-result scenario of `NewerPendingResultWins` exercise the
    method on inputs the program itself never supplies;
  - the decode outcome `handleDecode` and `restartPreviewAfterDelay`;
  - the highlight drawn on the decoded bitmap (`drawResultPoints`, `drawLine`);
  - the key handling of `onKeyDown`;
  - the requested screen orientation (`getCurrentOrientation`);
  - the sensor-driven orientation detector that restarts the screen on a side flip.
- **ScanActivity** is the single-shot subclass. It overrides `onResume` and `handleDecode`.
- **ViewfinderView** is the overlay drawn over the preview. The model covers:
  - the bounded list of candidate points (`addPossibleResultPoint`);
  - the per-frame state of `onDraw`: the first-draw initialisation, the scan line that
    moves down and wraps, the eight-step laser opacity cycle, and the copy of the current
    points into the "last" generation;
  - the mask, corner, laser and redraw rectangles that `onDraw` issues.

Calls into collaborators become values appended to an effect log, in call order. The
collaborators are the camera driver, the decode handler, beep/vibrate, the inactivity timer,
the ambient light manager, the status view and the Activity framework. Canvas calls become
lists of draw commands. Whatever the environment decides is a parameter. That covers:
- the display rotation and the configuration's landscape flag;
- whether a surface holder was supplied;
- how opening the camera turns out;
- whether a bitmap came with a decode result;
- the framing rectangles and the view size.

Files:
- `barcode.dfy` — decode results, result points, barcode formats, `Option`.
- `result_points.dfy` — `drawResultPoints` / `drawLine`.
- `orientation.dfy` — `getCurrentOrientation` and `MyOrientationDetector`.
- `capture.dfy` — the CaptureActivity coordinator:
  - pure step functions over a `CaptureState`;
  - a class whose methods are proved equal to those step functions;
  - the invariant the coordinator keeps over any sequence of events.
- `scan.dfy` — ScanActivity's two overrides.
- `viewfinder.dfy` — ViewfinderView.

The model follows the code, including where its behaviour may be surprising:
- The detector's buckets use strict bounds: a reading of exactly 45, 135, 225 or 315 degrees
  falls in no side bucket.
- The detector records a new bucket only when it restarts the screen. From the initial
  "none" bucket it therefore never restarts, whatever the readings are. A 90-then-270
  sequence restarts once only when the detector was seeded on the 90 side (display
  rotation 270).
- A decode counts as a success when the result object is non-null, whatever its text.
- `onDraw` copies the current points into the "last" list and never clears the current list.
  The half-opacity generation is therefore always the same points as the full-opacity one.
  The current list shrinks only by the trim in `addPossibleResultPoint`.

## Model

| member | source | states |
|---|---|---|
| ResultPoints.LineBetween | BarCodeLib/src/main/java/com/google/zxing/client/android/CaptureActivity.java:394-402 | a segment is drawn exactly when both endpoints are non-null, and it joins those two points |
| ResultPoints.DrawResultPoints | BarCodeLib/src/main/java/com/google/zxing/client/android/CaptureActivity.java:358-385 | the branch on point count and format, and the loop issuing one dot per non-null point, produce exactly the commands of `ResultPointCommands` |
| ResultPoints.DotsAppend | BarCodeLib/src/main/java/com/google/zxing/client/android/CaptureActivity.java:378-382 | the dots of a concatenated array are the dots of each part, in order |
| ResultPoints.DotsCount | BarCodeLib/src/main/java/com/google/zxing/client/android/CaptureActivity.java:378-382 | the dot loop draws one dot per non-null entry: array length minus the number of nulls |
| ResultPoints.DotsArePresentPoints | BarCodeLib/src/main/java/com/google/zxing/client/android/CaptureActivity.java:378-382 | every dot is a non-null point of the array, and every non-null point gets a dot |
| ResultPoints.NothingToDraw | BarCodeLib/src/main/java/com/google/zxing/client/android/CaptureActivity.java:359-363 | a null result, a null point array or an empty one draws nothing |
| ResultPoints.TwoPointsOneLine | BarCodeLib/src/main/java/com/google/zxing/client/android/CaptureActivity.java:367-369 | two points draw one line between them, or nothing if either is null |
| ResultPoints.FourRetailPointsTwoLines | BarCodeLib/src/main/java/com/google/zxing/client/android/CaptureActivity.java:370-375 | four points of UPC-A or EAN-13 draw exactly line (0,1) if both its ends exist, then line (2,3) if both its ends exist, each pair independently of the other |
| ResultPoints.OtherwiseOneDotPerPoint | BarCodeLib/src/main/java/com/google/zxing/client/android/CaptureActivity.java:376-383 | every other non-empty array draws only dots, one per non-null point, in array order |
| ResultPoints.LinesOnlyForTwoOrFourRetail | BarCodeLib/src/main/java/com/google/zxing/client/android/CaptureActivity.java:367-383 | a line appears only for two points or four UPC-A/EAN-13 points, and a drawing never mixes lines with dots |
| ResultPoints.CommandsUsePresentPoints | BarCodeLib/src/main/java/com/google/zxing/client/android/CaptureActivity.java:358-402 | no command refers to a null entry, and there are never more commands than points |
| Orientation.CurrentOrientation | BarCodeLib/src/main/java/com/google/zxing/client/android/CaptureActivity.java:160-179 | the requested orientation stays in the configuration's family; it is the non-reversed one exactly for rotations 0/90 (landscape) or 0/270 (portrait) |
| Orientation.HalfTurnRequestsReverse | BarCodeLib/src/main/java/com/google/zxing/client/android/CaptureActivity.java:160-179 | turning the display by 180 degrees always changes the requested orientation |
| Orientation.LastOrientationFor | BarCodeLib/src/main/java/com/google/zxing/client/android/CaptureActivity.java:417-428 | rotation 90 seeds bucket 270, rotation 270 seeds bucket 90, anything else seeds "none" |
| Orientation.Classify | BarCodeLib/src/main/java/com/google/zxing/client/android/CaptureActivity.java:433-439 | a reading is in bucket 90 exactly when strictly between 45 and 135, in bucket 270 exactly when strictly between 225 and 315, otherwise "none" |
| Orientation.RestartsIffSideFlip | BarCodeLib/src/main/java/com/google/zxing/client/android/CaptureActivity.java:440 | a restart fires exactly when the last bucket and the new one are 90 and 270, in either order |
| Orientation.OrientationDetector.constructor | BarCodeLib/src/main/java/com/google/zxing/client/android/CaptureActivity.java:411 | the detector starts in the "none" bucket |
| Orientation.OrientationDetector.SetLastOrientation | BarCodeLib/src/main/java/com/google/zxing/client/android/CaptureActivity.java:417-428 | the recorded bucket becomes the one seeded by the rotation |
| Orientation.OrientationDetector.OnOrientationChanged | BarCodeLib/src/main/java/com/google/zxing/client/android/CaptureActivity.java:430-448 | the screen restarts exactly on a side flip, and the bucket is recorded only then |
| Orientation.NoRestartFromNoBucket | BarCodeLib/src/main/java/com/google/zxing/client/android/CaptureActivity.java:411-448 | from the "none" bucket no sequence of readings restarts the screen, and the bucket stays "none" |
| Orientation.TrackKeepsBucket | BarCodeLib/src/main/java/com/google/zxing/client/android/CaptureActivity.java:440-447 | the bucket is always one of the three, and it changes only if a restart happened |
| Orientation.FlipRestartsOnce | BarCodeLib/src/main/java/com/google/zxing/client/android/CaptureActivity.java:417-447 | seeded from rotation 270, a 90 reading then a 270 reading restart exactly once and leave bucket 270 |
| Orientation.ThroughUprightNoRestart | BarCodeLib/src/main/java/com/google/zxing/client/android/CaptureActivity.java:430-448 | side, upright, same side, on the 90 or the 270 side, never restarts from "none" or from that side |
| Capture.Created | BarCodeLib/src/main/java/com/google/zxing/client/android/CaptureActivity.java:94-110 | after onCreate there is no surface, handler, open camera, registered callback or pending result |
| Capture.AfterStore | BarCodeLib/src/main/java/com/google/zxing/client/android/CaptureActivity.java:213-227 | without a handler the slot becomes the argument, null included; with one, a non-null argument or else the held result is sent once and the slot empties; nothing else changes |
| Capture.AfterInitCamera | BarCodeLib/src/main/java/com/google/zxing/client/android/CaptureActivity.java:187-211 | a null holder throws; an open camera is left alone; an open failure, and a handler-creation failure after the driver opened, show the framework-bug notice; when the driver and the handler start, the exact new state is stated: camera open, handler present, `OpenDriver`, `CreateHandler` only if there was no handler, the held result (if any) sent once and the slot emptied; the camera is open after exactly when it was, or the open succeeded; a handler exists after exactly when one did, or the camera was closed and both starts succeeded; a new handler leaves the slot empty |
| Capture.InitCameraCalls | BarCodeLib/src/main/java/com/google/zxing/client/android/CaptureActivity.java:187-211 | openDriver is called (it may throw) exactly when a holder is present and the camera was closed; a handler is created exactly when one appears; nothing else is called but the exception, the notice and the flush |
| Capture.InitCameraCallsEarly | BarCodeLib/src/main/java/com/google/zxing/client/android/CaptureActivity.java:188-194 | the same calls for the null holder, the open camera and the failures |
| Capture.InitCameraCallsOpened | BarCodeLib/src/main/java/com/google/zxing/client/android/CaptureActivity.java:195-201 | when the camera and handler start: openDriver is called, a handler is created exactly when none existed, the slot ends empty and a held result is sent |
| Capture.AfterResume | BarCodeLib/src/main/java/com/google/zxing/client/android/CaptureActivity.java:114-158 | the camera manager and handler reset and the prelude runs; a surviving surface initialises the camera at once (the new state is `AfterInitCamera` of the state after the prelude), otherwise the surface callback is registered |
| Capture.AfterPause | BarCodeLib/src/main/java/com/google/zxing/client/android/CaptureActivity.java:238-265 | no handler and a closed camera after; surface flag and slot kept; the callback stays registered only while a surface exists; the log gains exactly: detector disabled, the handler quit (only if one exists) before the inactivity, ambient-light and beep stops and the driver close, then the callback removed only when there is no surface |
| Capture.PauseCalls | BarCodeLib/src/main/java/com/google/zxing/client/android/CaptureActivity.java:238-265 | the handler is quit exactly when one existed, the callback is removed exactly when there is no surface, and the driver is always closed |
| Capture.AfterDestroy | BarCodeLib/src/main/java/com/google/zxing/client/android/CaptureActivity.java:267-273 | only the inactivity timer's shutdown is logged |
| Capture.AfterSurfaceCreated | BarCodeLib/src/main/java/com/google/zxing/client/android/CaptureActivity.java:297-306 | the surface flag is set; only the first notification initialises the camera |
| Capture.AfterSurfaceDestroyed | BarCodeLib/src/main/java/com/google/zxing/client/android/CaptureActivity.java:313-316 | only the surface flag is cleared |
| Capture.AfterRestartPreview | BarCodeLib/src/main/java/com/google/zxing/client/android/CaptureActivity.java:387-392 | the delayed restart message goes out only when a handler exists; the status view is reset in any case |
| Capture.DrawEffects | BarCodeLib/src/main/java/com/google/zxing/client/android/CaptureActivity.java:337 | the highlight commands are drawn on the bitmap one for one, in order |
| Capture.AfterDecode | BarCodeLib/src/main/java/com/google/zxing/client/android/CaptureActivity.java:325-349 | activity is always reported; a live scan beeps and draws, then returns RESULT_OK with the text and finishes, or restarts the preview on a null result; a call without a bitmap does nothing more |
| Capture.KeyEffects | BarCodeLib/src/main/java/com/google/zxing/client/android/CaptureActivity.java:275-295 | BACK cancels and finishes, VOLUME_DOWN and VOLUME_UP switch the torch off and on, and every other key calls nothing |
| Capture.KeyConsumed | BarCodeLib/src/main/java/com/google/zxing/client/android/CaptureActivity.java:275-295 | a key is consumed exactly when it is FOCUS, CAMERA or a volume key; BACK falls through to the framework |
| Capture.ApplyPreserves | BarCodeLib/src/main/java/com/google/zxing/client/android/CaptureActivity.java:114-392 | every event keeps "a handler only with an open camera, a pending result only without a handler", and only appends to the log |
| Capture.RunPreserves | BarCodeLib/src/main/java/com/google/zxing/client/android/CaptureActivity.java:114-392 | any sequence of events keeps that invariant, and the log only grows |
| Capture.NewerPendingResultWins | BarCodeLib/src/main/java/com/google/zxing/client/android/CaptureActivity.java:187-227 | two results stored before a handler exists: after the camera opens only the newer one is delivered, once, and the slot is empty |
| Capture.LiveScanTwoPointsSucceeds | BarCodeLib/src/main/java/com/google/zxing/client/android/CaptureActivity.java:325-349 | a live scan with two points and text "ABC123" beeps, draws one line, returns RESULT_OK with "ABC123" and finishes, without a restart message |
| Capture.LiveScanFailureRestarts | BarCodeLib/src/main/java/com/google/zxing/client/android/CaptureActivity.java:333-348 | a live scan with a null result sends one restart message if a handler exists (none otherwise), resets the prompt and does not finish |
| Capture.CaptureActivity.constructor | BarCodeLib/src/main/java/com/google/zxing/client/android/CaptureActivity.java:94-110 | the coordinator starts in the onCreate state |
| Capture.CaptureActivity.OnResume | BarCodeLib/src/main/java/com/google/zxing/client/android/CaptureActivity.java:114-158 | the fields end as `AfterResume` of the fields before |
| Capture.CaptureActivity.InitCamera | BarCodeLib/src/main/java/com/google/zxing/client/android/CaptureActivity.java:187-211 | the fields end as `AfterInitCamera` of the fields before |
| Capture.CaptureActivity.DecodeOrStoreSavedBitmap | BarCodeLib/src/main/java/com/google/zxing/client/android/CaptureActivity.java:213-227 | the fields end as `AfterStore` of the fields before |
| Capture.CaptureActivity.OnPause | BarCodeLib/src/main/java/com/google/zxing/client/android/CaptureActivity.java:238-265 | the fields end as `AfterPause` of the fields before |
| Capture.CaptureActivity.OnDestroy | BarCodeLib/src/main/java/com/google/zxing/client/android/CaptureActivity.java:267-273 | the fields end as `AfterDestroy` of the fields before |
| Capture.CaptureActivity.OnKeyDown | BarCodeLib/src/main/java/com/google/zxing/client/android/CaptureActivity.java:275-295 | only the key's effects are logged, and the return value is `KeyConsumed` |
| Capture.CaptureActivity.SurfaceCreated | BarCodeLib/src/main/java/com/google/zxing/client/android/CaptureActivity.java:297-306 | the fields end as `AfterSurfaceCreated` of the fields before |
| Capture.CaptureActivity.SurfaceDestroyed | BarCodeLib/src/main/java/com/google/zxing/client/android/CaptureActivity.java:313-316 | the fields end as `AfterSurfaceDestroyed` of the fields before |
| Capture.CaptureActivity.HandleDecode | BarCodeLib/src/main/java/com/google/zxing/client/android/CaptureActivity.java:325-349 | the fields end as `AfterDecode` of the fields before |
| Capture.CaptureActivity.RestartPreviewAfterDelay | BarCodeLib/src/main/java/com/google/zxing/client/android/CaptureActivity.java:387-392 | the fields end as `AfterRestartPreview` of the fields before |
| Scan.AfterScanResume | BarCodeLib/src/main/java/com/google/zxing/client/android/ScanActivity.java:13-17 | the base resume runs first, and then exactly the restart request follows: the 500 ms restart message only if the resume left a handler, then the status reset |
| Scan.AfterScanDecode | BarCodeLib/src/main/java/com/google/zxing/client/android/ScanActivity.java:19-30 | the base handling runs first and the override only appends: for a non-null result, RESULT_OK with the text under "scan_result" then finish; for a null result, the 500 ms restart message only if a handler exists, then the status reset, and no finish |
| Scan.ScanResumeRestartNeedsSurface | BarCodeLib/src/main/java/com/google/zxing/client/android/ScanActivity.java:13-17 | the restart requested on resume goes out exactly when the surface survived the pause and the camera and its handler both started |
| Scan.ResumeSendsNoRestart | BarCodeLib/src/main/java/com/google/zxing/client/android/CaptureActivity.java:114-158 | the base resume never sends a restart message itself |
| Scan.ScanDecodeBase | BarCodeLib/src/main/java/com/google/zxing/client/android/CaptureActivity.java:325-349 | for a non-null result the base handling sends no restart message, and without a bitmap it only reports activity |
| Scan.ScanSuccessEndsSession | BarCodeLib/src/main/java/com/google/zxing/client/android/ScanActivity.java:19-30 | a non-null result always ends with RESULT_OK, its text and finish, with no restart and, without a bitmap, no beep |
| Scan.ScanLiveSuccessRepeatsBaseResult | BarCodeLib/src/main/java/com/google/zxing/client/android/ScanActivity.java:19-30 | on a live success the subclass repeats exactly the result the base already set |
| Scan.ScanFailureRestarts | BarCodeLib/src/main/java/com/google/zxing/client/android/ScanActivity.java:19-30 | a null result sends no restart without a handler, two on a live scan, one otherwise |
| Scan.ScanActivity.constructor | BarCodeLib/src/main/java/com/google/zxing/client/android/ScanActivity.java:9 | the base part starts in the onCreate state |
| Scan.ScanActivity.OnResume | BarCodeLib/src/main/java/com/google/zxing/client/android/ScanActivity.java:13-17 | the base fields end as `AfterScanResume` of the fields before |
| Scan.ScanActivity.HandleDecode | BarCodeLib/src/main/java/com/google/zxing/client/android/ScanActivity.java:19-30 | the base fields end as `AfterScanDecode` of the fields before |
| Viewfinder.JavaHalf | BarCodeLib/src/main/java/com/google/zxing/client/android/view/ViewfinderView.java:316 | division by two truncates toward zero, so twice the result is within one of the input |
| Viewfinder.AfterAdd | BarCodeLib/src/main/java/com/google/zxing/client/android/view/ViewfinderView.java:341-350 | the list is the newest points in arrival order; it keeps all of them up to the bound, otherwise exactly half the bound; a list within the bound stays within it |
| Viewfinder.AddAllWithinBound | BarCodeLib/src/main/java/com/google/zxing/client/android/view/ViewfinderView.java:341-350 | any number of additions keeps the list within the bound and holds at least the smaller of all points and half the bound |
| Viewfinder.AddAllKeepsNewest | BarCodeLib/src/main/java/com/google/zxing/client/android/view/ViewfinderView.java:341-350 | after any number of additions the list is a suffix of everything held or added |
| Viewfinder.SlideTopStaysInFrame | BarCodeLib/src/main/java/com/google/zxing/client/android/view/ViewfinderView.java:267-270 | the scan line stays at or below the top edge and strictly above the bottom edge |
| Viewfinder.SweepLength | BarCodeLib/src/main/java/com/google/zxing/client/android/view/ViewfinderView.java:267-270 | the sweep length is the first number of steps that reaches the bottom edge |
| Viewfinder.SlideTopCycles | BarCodeLib/src/main/java/com/google/zxing/client/android/view/ViewfinderView.java:235-270 | after the first draw the line is at top + step * (draws mod sweep length) |
| Viewfinder.SlideTopCyclesWith | BarCodeLib/src/main/java/com/google/zxing/client/android/view/ViewfinderView.java:267-270 | the same, for any sweep length k with top + (k-1)*step < bottom <= top + k*step |
| Viewfinder.AlphaIndexClosedForm | BarCodeLib/src/main/java/com/google/zxing/client/android/view/ViewfinderView.java:275 | after n bar-style draws the opacity index is (start + n) mod 8 |
| Viewfinder.AlphaIndexCycles | BarCodeLib/src/main/java/com/google/zxing/client/android/view/ViewfinderView.java:50 | the opacity index stays in the table and repeats every eight draws |
| Viewfinder.MaskAvoidsFrame | BarCodeLib/src/main/java/com/google/zxing/client/android/view/ViewfinderView.java:240-245 | no pixel of the frame, its right column and bottom row included, is darkened |
| Viewfinder.MaskAndFrameCoverView | BarCodeLib/src/main/java/com/google/zxing/client/android/view/ViewfinderView.java:240-245 | the frame and the four masks cover every pixel of the view |
| Viewfinder.MasksDoNotOverlap | BarCodeLib/src/main/java/com/google/zxing/client/android/view/ViewfinderView.java:240-245 | for a frame that is not inverted, no pixel is darkened twice |
| Viewfinder.CornersInsideFrame | BarCodeLib/src/main/java/com/google/zxing/client/android/view/ViewfinderView.java:247-264 | corner bars no longer than the frame lie inside the frame |
| Viewfinder.InvalidateRegionIsGrownFrame | BarCodeLib/src/main/java/com/google/zxing/client/android/view/ViewfinderView.java:330-334 | the redrawn region is the frame grown by the point size on every side, and for a positive point size it contains the closed frame |
| Viewfinder.EachPointDrawnTwice | BarCodeLib/src/main/java/com/google/zxing/client/android/view/ViewfinderView.java:302-326 | each point is drawn once at full opacity and size, then once at half of each |
| Viewfinder.FrameEndsWithOneRedraw | BarCodeLib/src/main/java/com/google/zxing/client/android/view/ViewfinderView.java:330-334 | every frame ends with exactly one delayed redraw request of the grown frame |
| Viewfinder.DrawCircles | BarCodeLib/src/main/java/com/google/zxing/client/android/view/ViewfinderView.java:308-312 | the loop draws one circle per point, in list order |
| Viewfinder.ViewfinderView.constructor | BarCodeLib/src/main/java/com/google/zxing/client/android/view/ViewfinderView.java:148-209 | first draw pending, opacity index 0, both point lists empty, no camera manager |
| Viewfinder.ViewfinderView.SetCameraManager | BarCodeLib/src/main/java/com/google/zxing/client/android/view/ViewfinderView.java:216-218 | the camera manager is set and nothing else changes |
| Viewfinder.ViewfinderView.AddPossibleResultPoint | BarCodeLib/src/main/java/com/google/zxing/client/android/view/ViewfinderView.java:341-350 | the list becomes `AfterAdd` of the old list, stays within the bound, and nothing else changes |
| Viewfinder.ViewfinderView.OnDraw | BarCodeLib/src/main/java/com/google/zxing/client/android/view/ViewfinderView.java:222-335 | before configuration nothing changes and nothing is drawn; otherwise the first draw starts the line at the top edge, the line advances and wraps, only the bar style advances the opacity, the current points are copied into the last list, and the frame's commands are issued |

## Left out

- Floating point: result-point coordinates are kept as reals and never scaled. The scale
  factor in `drawResultPoints`, the preview-to-frame scaling in `onDraw` and the tip text's
  position are not modelled. Circles record the point they are drawn for and their radius
  in half pixels.
- Stroke widths and colours are not modelled.
- Paint state: the model records the opacity that `onDraw` requests for each point
  generation. In Android, the `setColor` call that follows `setAlpha` replaces the alpha,
  so on a device the circles take the alpha of the result-point colour.
- Concurrency: `synchronized` blocks and the handler's message thread are not modelled.
  Every call runs to completion.
- Collaborators: the camera manager, the decode handler, the beep manager, the inactivity
  timer and the ambient light manager are effects in the log. Whether the driver and the
  handler start is the `CameraOutcome` input. The preview restart a handler performs on a
  restart message is not modelled.
- Dialogs: `displayFrameworkBugMessageAndExit` is one `FrameworkBugNotice` effect. The
  finish its buttons trigger is not modelled.
- The tip text is one `DrawTipText` command.
- `getCurrentOrientation`: the orientation is chosen with the auto-orientation switch off,
  which is the source's constant value. The sensor-orientation branch of `onResume` and the
  detector's enabling are therefore absent. The detector's restart (finish and relaunch
  with the same intent) is reported as a boolean.
- `Capture.CaptureActivity.OnKeyDown`: for keys it does not consume, the framework's answer
  is modelled as `false`. `onKeyDown`'s fall-through to the framework is not modelled.
- `Viewfinder.AfterAdd`: `maxResultPoints` is a `nat`. Negative configured values are
  outside the model: with -1 the Java trim keeps no point (Java's `-1 / 2` is 0, so the
  whole list is cleared on every add), and with -2 or less the trim's range is invalid and
  throws.
- Java `int` overflow in the slide, rectangle and opacity arithmetic is not modelled.
  Integers are unbounded.
- `onDraw` is modelled with a non-null camera manager standing for the `cameraManager`
  field. Its framing rectangles are parameters.
- `surfaceChanged`, `drawViewfinder`, `getHandler`, `getCameraManager`, `onCreate`'s
  window flags and layout are not modelled: they hold no state the core changes.
