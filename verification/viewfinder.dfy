/** ViewfinderView: the overlay drawn over the camera preview. It darkens everything outside
    the framing rectangle, marks its corners, sweeps a scan line down it, and flickers the
    candidate points the decoder reports. Canvas calls become a list of operations. */
module Viewfinder {
  import opened Barcode

  /** android.graphics.Rect. */
  datatype Rect = Rect(left: int, top: int, right: int, bottom: int)

  /** A pixel covered by drawRect(r): both axes half-open. */
  predicate InHalfOpen(r: Rect, x: int, y: int)
  {
    r.left <= x < r.right && r.top <= y < r.bottom
  }

  /** A pixel of the framing rectangle, its right column and bottom row included. */
  predicate InClosedFrame(f: Rect, x: int, y: int)
  {
    f.left <= x <= f.right && f.top <= y <= f.bottom
  }

  /** The opacities the bar-style laser cycles through, one step per draw. */
  const ScannerAlpha: seq<int> := [0, 64, 128, 192, 255, 192, 128, 64]

  /** Laser styles: a coloured bar, or a bitmap stretched over the frame's width. */
  const LaserBar: int := 0
  const LaserBitmap: int := 1

  /** The height of the bitmap laser's destination rectangle. */
  const LaserBitmapHeight: int := 18

  /** The view's attributes that the drawing and the point list depend on. */
  datatype Config = Config(
    laserStyle: int,
    laserHeight: int,
    cornerLength: int,
    cornerThickness: int,
    scanningDistance: int,
    animationDelay: int,
    currentPointOpacity: int,
    maxResultPoints: nat,
    possiblePointSize: int)

  /** The paint a rectangle is filled with. */
  datatype Paint = MaskPaint | CornerPaint | LaserPaint(alpha: int)

  /** One canvas call, or the request for the next frame. Circles record which point is
      drawn, the opacity requested, and the radius in half pixels. */
  datatype CanvasOp =
    | FillRect(rect: Rect, paint: Paint)
    | DrawLaserBitmap(dest: Rect)
    | DrawTipText
    | DrawCircle(point: ResultPoint, alpha: int, doubledRadius: int)
    | PostInvalidateDelayed(delayMs: int, region: Rect)

  /** Java's `/ 2` on an int, which truncates toward zero. */
  function JavaHalf(x: int): (r: int)
    ensures x >= 0 ==> r == x / 2
    ensures x < 0 ==> r == -((-x) / 2)
    ensures 2 * r == x || 2 * r == x - 1 || 2 * r == x + 1
  {
    if x >= 0 then x / 2 else -((-x) / 2)
  }

  // ---------------------------------------------------------------------------------------
  // The candidate-point list

  /** addPossibleResultPoint on the list: append, and when the list then holds more than
      `max` points keep only the newest `max / 2` of them. */
  function AfterAdd(points: seq<ResultPoint>, point: ResultPoint, max: nat): (r: seq<ResultPoint>)
    ensures |r| == if |points| + 1 <= max then |points| + 1 else max / 2
    ensures r == (points + [point])[|points| + 1 - |r|..]
    ensures |points| <= max ==> |r| <= max
  {
    var grown := points + [point];
    if |grown| > max then grown[|grown| - max / 2..] else grown
  }

  /** Adding points one at a time. */
  function AddAll(points: seq<ResultPoint>, added: seq<ResultPoint>, max: nat): seq<ResultPoint>
    decreases added
  {
    if added == [] then points else AddAll(AfterAdd(points, added[0], max), added[1..], max)
  }

  /** A suffix of the list grown by one point, followed by the remaining arrivals, and
      then cut to a suffix again, is a suffix of everything that arrived. */
  lemma SuffixChain(points: seq<ResultPoint>, added: seq<ResultPoint>, next: seq<ResultPoint>, r: seq<ResultPoint>)
    requires added != []
    requires |next| <= |points| + 1 && next == (points + [added[0]])[|points| + 1 - |next|..]
    requires |r| <= |next| + |added| - 1 && r == (next + added[1..])[|next| + |added| - 1 - |r|..]
    ensures r == (points + added)[|points| + |added| - |r|..]
  {
    var all := points + added;
    var d := |points| + 1 - |next|;
    assert next + added[1..] == all[d..];
  }

  /** However many points arrive, a list that starts within the bound stays within it,
      never holds more points than arrived, and holds at least the smaller of all of them
      and half the bound. */
  lemma {:induction false} AddAllWithinBound(points: seq<ResultPoint>, added: seq<ResultPoint>, max: nat)
    requires |points| <= max
    ensures var r := AddAll(points, added, max);
      && |r| <= max
      && |r| <= |points| + |added|
      && |r| >= (if |points| + |added| < max / 2 then |points| + |added| else max / 2)
    decreases added
  {
    if added != [] {
      AddAllWithinBound(AfterAdd(points, added[0], max), added[1..], max);
    }
  }

  /** The list is always the newest points in arrival order: a suffix of everything that
      was held or added. */
  lemma {:induction false} AddAllKeepsNewest(points: seq<ResultPoint>, added: seq<ResultPoint>, max: nat)
    requires |points| <= max
    ensures var r := AddAll(points, added, max);
      |r| <= |points| + |added| && r == (points + added)[|points| + |added| - |r|..]
    decreases added
  {
    if added != [] {
      var next := AfterAdd(points, added[0], max);
      AddAllKeepsNewest(next, added[1..], max);
      SuffixChain(points, added, next, AddAll(next, added[1..], max));
    }
  }

  // ---------------------------------------------------------------------------------------
  // The scan line and the laser opacity

  /** One draw's move of the scan line: down by the step, back to the top when it reaches
      or passes the bottom edge. */
  function NextSlideTop(slideTop: int, step: int, frame: Rect): int
  {
    if slideTop + step >= frame.bottom then frame.top else slideTop + step
  }

  /** With a non-negative step, a line that starts at or below the top edge stays inside
      the frame: top <= line < bottom. */
  lemma SlideTopStaysInFrame(slideTop: int, step: int, frame: Rect)
    requires frame.top < frame.bottom && step >= 0 && frame.top <= slideTop
    ensures frame.top <= NextSlideTop(slideTop, step, frame) < frame.bottom
  {
  }

  /** The line's position after `n` further draws. */
  function SlideTopAfter(slideTop: int, step: int, frame: Rect, n: nat): int
  {
    if n == 0 then slideTop else NextSlideTop(SlideTopAfter(slideTop, step, frame, n - 1), step, frame)
  }

  /** The number of draws in one sweep: the first k with top + k * step >= bottom. */
  function SweepLength(step: int, frame: Rect): (k: int)
    requires step > 0 && frame.top < frame.bottom
    ensures k >= 1
    ensures frame.top + step * k >= frame.bottom
    ensures frame.top + step * (k - 1) < frame.bottom
  {
    var h := frame.bottom - frame.top;
    var k := (h + step - 1) / step;
    assert h + step - 1 == k * step + (h + step - 1) % step;
    k
  }

  /** A multiple of k strictly between -k and k is zero. */
  lemma MulSmall(k: int, d: int)
    requires k >= 1 && -k < k * d < k
    ensures d == 0
  {
    if d >= 1 {
      MulMonotone(1, d, k);
    } else if d <= -1 {
      MulMonotone(1, -d, k);
    }
  }

  /** The remainder is the only r in [0, k) with n == k * q + r. */
  lemma ModUnique(n: int, k: int, q: int, r: int)
    requires k >= 1 && 0 <= r < k && n == k * q + r
    ensures n % k == r
  {
    var q', r' := n / k, n % k;
    assert n == k * q' + r';
    assert k * (q - q') == k * q - k * q';
    MulSmall(k, q - q');
  }

  /** Counting modulo k: one more than n - 1 wraps to zero exactly at k. */
  lemma ModStep(n: nat, k: int)
    requires n > 0 && k >= 1
    ensures (n - 1) % k + 1 <= k
    ensures n % k == if (n - 1) % k + 1 == k then 0 else (n - 1) % k + 1
  {
    var q := (n - 1) / k;
    var m := (n - 1) % k;
    assert n - 1 == k * q + m;
    if m + 1 == k {
      assert n == k * (q + 1) + 0;
      ModUnique(n, k, q + 1, 0);
    } else {
      ModUnique(n, k, q, m + 1);
    }
  }

  lemma MulMonotone(a: int, b: int, c: int)
    requires 0 <= a <= b && c > 0
    ensures c * a <= c * b
  {
  }

  lemma MulSucc(a: int, c: int)
    ensures c * a + c == c * (a + 1)
  {
  }

  /** From the top edge, the line visits top, top + step, top + 2 * step, ... and wraps
      back to the top on the first draw where it would reach the bottom edge. */
  lemma SlideTopCycles(step: int, frame: Rect, n: nat)
    requires step > 0 && frame.top < frame.bottom
    ensures SlideTopAfter(frame.top, step, frame, n) == frame.top + step * (n % SweepLength(step, frame))
  {
    SlideTopCyclesWith(step, frame, SweepLength(step, frame), n);
  }

  lemma {:induction false} SlideTopCyclesWith(step: int, frame: Rect, k: int, n: nat)
    requires step > 0 && k >= 1
    requires frame.top + step * k >= frame.bottom && frame.top + step * (k - 1) < frame.bottom
    ensures SlideTopAfter(frame.top, step, frame, n) == frame.top + step * (n % k)
  {
    if n > 0 {
      SlideTopCyclesWith(step, frame, k, n - 1);
      var m := (n - 1) % k;
      var prev := SlideTopAfter(frame.top, step, frame, n - 1);
      ModStep(n, k);
      MulSucc(m, step);
      if m + 1 < k {
        MulMonotone(m + 1, k - 1, step);
        assert n % k == m + 1;
      } else {
        assert n % k == 0;
      }
    }
  }

  /** The bar laser's next opacity index. */
  function NextAlphaIndex(i: int): int
  {
    (i + 1) % |ScannerAlpha|
  }

  /** The index after `n` bar-style draws. */
  function AlphaIndexAfter(i: int, n: nat): int
  {
    if n == 0 then i else NextAlphaIndex(AlphaIndexAfter(i, n - 1))
  }

  /** The opacity index after n draws, in closed form. */
  lemma {:induction false} AlphaIndexClosedForm(i: int, n: nat)
    requires 0 <= i < |ScannerAlpha|
    ensures AlphaIndexAfter(i, n) == (i + n) % 8
  {
    if n > 0 {
      AlphaIndexClosedForm(i, n - 1);
      ModStep(i + n, 8);
    }
  }

  /** The opacity index stays within the table and repeats every eight draws. */
  lemma AlphaIndexCycles(i: int, n: nat)
    requires 0 <= i < |ScannerAlpha|
    ensures 0 <= AlphaIndexAfter(i, n) < |ScannerAlpha|
    ensures AlphaIndexAfter(i, n + 8) == AlphaIndexAfter(i, n)
  {
    AlphaIndexClosedForm(i, n);
    AlphaIndexClosedForm(i, n + 8);
    ModUnique(i + n + 8, 8, (i + n) / 8 + 1, (i + n) % 8);
  }

  // ---------------------------------------------------------------------------------------
  // Geometry

  /** The four darkened rectangles: above the frame, left of it, right of it, below it. */
  function MaskRects(f: Rect, width: int, height: int): seq<Rect>
  {
    [Rect(0, 0, width, f.top),
     Rect(0, f.top, f.left, f.bottom + 1),
     Rect(f.right + 1, f.top, width, f.bottom + 1),
     Rect(0, f.bottom + 1, width, height)]
  }

  /** No pixel of the frame is darkened. */
  lemma MaskAvoidsFrame(f: Rect, width: int, height: int, x: int, y: int)
    ensures forall i :: 0 <= i < 4 && InHalfOpen(MaskRects(f, width, height)[i], x, y) ==> !InClosedFrame(f, x, y)
  {
  }

  /** The frame and the four masks together cover every pixel of the view. */
  lemma MaskAndFrameCoverView(f: Rect, width: int, height: int, x: int, y: int)
    requires 0 <= x < width && 0 <= y < height
    ensures InClosedFrame(f, x, y) || exists i :: 0 <= i < 4 && InHalfOpen(MaskRects(f, width, height)[i], x, y)
  {
    var m := MaskRects(f, width, height);
    if y < f.top {
      assert InHalfOpen(m[0], x, y);
    } else if y > f.bottom {
      assert InHalfOpen(m[3], x, y);
    } else if x < f.left {
      assert InHalfOpen(m[1], x, y);
    } else if x > f.right {
      assert InHalfOpen(m[2], x, y);
    }
  }

  /** For a frame that is not inverted, no pixel is darkened twice. */
  lemma MasksDoNotOverlap(f: Rect, width: int, height: int, x: int, y: int)
    requires f.left <= f.right + 1 && f.top <= f.bottom + 1
    ensures forall i, j :: 0 <= i < j < 4 ==>
      !(InHalfOpen(MaskRects(f, width, height)[i], x, y) && InHalfOpen(MaskRects(f, width, height)[j], x, y))
  {
  }

  /** The eight corner bars, in the order they are drawn. */
  function CornerRects(f: Rect, len: int, thick: int): seq<Rect>
  {
    [Rect(f.left, f.top, f.left + len, f.top + thick),
     Rect(f.left, f.top, f.left + thick, f.top + len),
     Rect(f.right - len, f.top, f.right, f.top + thick),
     Rect(f.right - thick, f.top, f.right, f.top + len),
     Rect(f.left, f.bottom - thick, f.left + len, f.bottom),
     Rect(f.left, f.bottom - len, f.left + thick, f.bottom),
     Rect(f.right - len, f.bottom - thick, f.right, f.bottom),
     Rect(f.right - thick, f.bottom - len, f.right, f.bottom)]
  }

  /** Corner bars no longer than the frame lie inside it, so the mask never covers them. */
  lemma CornersInsideFrame(f: Rect, len: int, thick: int, x: int, y: int)
    requires 0 <= thick <= len && len <= f.right - f.left && len <= f.bottom - f.top
    ensures forall i :: 0 <= i < 8 && InHalfOpen(CornerRects(f, len, thick)[i], x, y) ==> InClosedFrame(f, x, y)
  {
  }

  /** The region redrawn next time: the frame grown by the point size on every side. */
  function InvalidateRegion(f: Rect, size: int): Rect
  {
    Rect(f.left - size, f.top - size, f.right + size, f.bottom + size)
  }

  /** A pixel is in the redrawn region exactly when it lies within `size` of the frame's
      half-open extent, horizontally and vertically. */
  lemma InvalidateRegionIsGrownFrame(f: Rect, size: int, x: int, y: int)
    ensures InHalfOpen(InvalidateRegion(f, size), x, y) <==>
      (f.left - size <= x < f.right + size && f.top - size <= y < f.bottom + size)
    ensures size >= 1 && InClosedFrame(f, x, y) ==> InHalfOpen(InvalidateRegion(f, size), x, y)
  {
  }

  // ---------------------------------------------------------------------------------------
  // One frame of drawing

  function MaskOps(f: Rect, width: int, height: int): seq<CanvasOp>
  {
    var m := MaskRects(f, width, height);
    [FillRect(m[0], MaskPaint), FillRect(m[1], MaskPaint), FillRect(m[2], MaskPaint), FillRect(m[3], MaskPaint)]
  }

  function CornerOps(f: Rect, config: Config): seq<CanvasOp>
  {
    var c := CornerRects(f, config.cornerLength, config.cornerThickness);
    seq(8, i requires 0 <= i < 8 => FillRect(c[i], CornerPaint))
  }

  /** The scan line at its (already advanced) position, in the configured style; an
      unknown style draws nothing. */
  function LaserOps(config: Config, f: Rect, slideTop: int, alphaIndex: int): seq<CanvasOp>
    requires 0 <= alphaIndex < |ScannerAlpha|
  {
    if config.laserStyle == LaserBar then
      [FillRect(Rect(f.left, slideTop, f.right, slideTop + config.laserHeight), LaserPaint(ScannerAlpha[alphaIndex]))]
    else if config.laserStyle == LaserBitmap then
      [DrawLaserBitmap(Rect(f.left, slideTop, f.right, slideTop + LaserBitmapHeight))]
    else []
  }

  /** One circle per point, in list order. */
  function Circles(points: seq<ResultPoint>, alpha: int, doubledRadius: int): seq<CanvasOp>
  {
    seq(|points|, i requires 0 <= i < |points| => DrawCircle(points[i], alpha, doubledRadius))
  }

  /** The candidate points: the current ones at full opacity and radius, then the copy
      just taken of them at half opacity and half radius. */
  function PointOps(config: Config, points: seq<ResultPoint>): seq<CanvasOp>
  {
    if points == [] then []
    else (Circles(points, config.currentPointOpacity, 2 * config.possiblePointSize)
          + Circles(points, JavaHalf(config.currentPointOpacity), config.possiblePointSize))
  }

  /** Everything one qualifying draw issues, in order. */
  function FrameOps(config: Config, f: Rect, width: int, height: int, slideTop: int, alphaIndex: int,
                    points: seq<ResultPoint>): seq<CanvasOp>
    requires 0 <= alphaIndex < |ScannerAlpha|
  {
    MaskOps(f, width, height) + CornerOps(f, config) + LaserOps(config, f, slideTop, alphaIndex)
      + [DrawTipText] + PointOps(config, points)
      + [PostInvalidateDelayed(config.animationDelay, InvalidateRegion(f, config.possiblePointSize))]
  }

  /** Each point is drawn twice per frame: once at the configured opacity and size, once at
      half of each; so the "last" generation shows the same points as the current one. */
  lemma EachPointDrawnTwice(config: Config, points: seq<ResultPoint>)
    ensures var ops := PointOps(config, points);
      && |ops| == 2 * |points|
      && forall i :: 0 <= i < |points| ==>
           && ops[i] == DrawCircle(points[i], config.currentPointOpacity, 2 * config.possiblePointSize)
           && ops[|points| + i] == DrawCircle(points[i], JavaHalf(config.currentPointOpacity), config.possiblePointSize)
  {
  }

  /** A frame always ends with exactly one request for the next frame, after the animation
      delay and restricted to the grown frame. */
  lemma FrameEndsWithOneRedraw(config: Config, f: Rect, width: int, height: int, slideTop: int,
                               alphaIndex: int, points: seq<ResultPoint>)
    requires 0 <= alphaIndex < |ScannerAlpha|
    ensures var ops := FrameOps(config, f, width, height, slideTop, alphaIndex, points);
      && ops[|ops| - 1] == PostInvalidateDelayed(config.animationDelay, InvalidateRegion(f, config.possiblePointSize))
      && forall i :: 0 <= i < |ops| - 1 ==> !ops[i].PostInvalidateDelayed?
  {
  }

  /** The loop that draws one circle per point. */
  method DrawCircles(points: seq<ResultPoint>, alpha: int, doubledRadius: int) returns (ops: seq<CanvasOp>)
    ensures ops == Circles(points, alpha, doubledRadius)
  {
    ops := [];
    for i := 0 to |points|
      invariant |ops| == i
      invariant forall k :: 0 <= k < i ==> ops[k] == DrawCircle(points[k], alpha, doubledRadius)
    {
      ops := ops + [DrawCircle(points[i], alpha, doubledRadius)];
    }
    assert |ops| == |Circles(points, alpha, doubledRadius)|;
  }

  class ViewfinderView {
    const config: Config
    var hasCameraManager: bool
    var possibleResultPoints: seq<ResultPoint>
    var lastPossibleResultPoints: seq<ResultPoint>
    var scannerAlpha: int
    var slideTop: int
    var isFirstDraw: bool

    /** The opacity index addresses the table, and the point list respects its bound. */
    ghost predicate Valid()
      reads this
    {
      && 0 <= scannerAlpha < |ScannerAlpha|
      && |possibleResultPoints| <= config.maxResultPoints
    }

    constructor (config: Config)
      ensures Valid() && this.config == config
      ensures !hasCameraManager && isFirstDraw && scannerAlpha == 0 && slideTop == 0
      ensures possibleResultPoints == [] && lastPossibleResultPoints == []
    {
      this.config := config;
      hasCameraManager := false;
      possibleResultPoints := [];
      lastPossibleResultPoints := [];
      scannerAlpha := 0;
      slideTop := 0;
      isFirstDraw := true;
    }

    method SetCameraManager()
      modifies this
      ensures hasCameraManager
      ensures possibleResultPoints == old(possibleResultPoints)
      ensures lastPossibleResultPoints == old(lastPossibleResultPoints)
      ensures scannerAlpha == old(scannerAlpha) && slideTop == old(slideTop) && isFirstDraw == old(isFirstDraw)
    {
      hasCameraManager := true;
    }

    method AddPossibleResultPoint(point: ResultPoint)
      requires Valid()
      modifies this
      ensures Valid()
      ensures possibleResultPoints == AfterAdd(old(possibleResultPoints), point, config.maxResultPoints)
      ensures lastPossibleResultPoints == old(lastPossibleResultPoints) && hasCameraManager == old(hasCameraManager)
      ensures scannerAlpha == old(scannerAlpha) && slideTop == old(slideTop) && isFirstDraw == old(isFirstDraw)
    {
      possibleResultPoints := possibleResultPoints + [point];
      var size := |possibleResultPoints|;
      if size > config.maxResultPoints {
        possibleResultPoints := possibleResultPoints[size - config.maxResultPoints / 2..];
      }
    }

    /** onDraw. `frame` and `previewFrame` are what the camera manager reports; `width` and
        `height` are the view's size. */
    method OnDraw(frame: Option<Rect>, previewFrame: Option<Rect>, width: int, height: int)
      returns (ops: seq<CanvasOp>)
      requires Valid()
      modifies this
      ensures Valid()
      ensures possibleResultPoints == old(possibleResultPoints) && hasCameraManager == old(hasCameraManager)
      ensures !(hasCameraManager && frame.Some? && previewFrame.Some?) ==>
        && ops == []
        && isFirstDraw == old(isFirstDraw) && slideTop == old(slideTop) && scannerAlpha == old(scannerAlpha)
        && lastPossibleResultPoints == old(lastPossibleResultPoints)
      ensures hasCameraManager && frame.Some? && previewFrame.Some? ==>
        && !isFirstDraw
        && slideTop == NextSlideTop(if old(isFirstDraw) then frame.value.top else old(slideTop),
                                    config.scanningDistance, frame.value)
        && scannerAlpha == (if config.laserStyle == LaserBar then NextAlphaIndex(old(scannerAlpha)) else old(scannerAlpha))
        && lastPossibleResultPoints == possibleResultPoints
        && ops == FrameOps(config, frame.value, width, height, slideTop, old(scannerAlpha), possibleResultPoints)
    {
      ops := [];
      if !hasCameraManager {
        return;
      }
      if frame.None? || previewFrame.None? {
        return;
      }
      var f := frame.value;
      ghost var alpha0 := scannerAlpha;
      if isFirstDraw {
        isFirstDraw := false;
        slideTop := f.top;
      }
      ops := MaskOps(f, width, height) + CornerOps(f, config);
      slideTop := slideTop + config.scanningDistance;
      if slideTop >= f.bottom {
        slideTop := f.top;
      }
      ops := ops + LaserOps(config, f, slideTop, scannerAlpha);
      if config.laserStyle == LaserBar {
        scannerAlpha := (scannerAlpha + 1) % |ScannerAlpha|;
      }
      ops := ops + [DrawTipText];
      lastPossibleResultPoints := [];
      var points: seq<CanvasOp> := [];
      if possibleResultPoints != [] {
        lastPossibleResultPoints := lastPossibleResultPoints + possibleResultPoints;
        points := DrawCircles(possibleResultPoints, config.currentPointOpacity, 2 * config.possiblePointSize);
      }
      if lastPossibleResultPoints != [] {
        var last := DrawCircles(lastPossibleResultPoints, JavaHalf(config.currentPointOpacity), config.possiblePointSize);
        points := points + last;
      }
      assert lastPossibleResultPoints == possibleResultPoints;
      assert points == PointOps(config, possibleResultPoints);
      ops := ops + points;
      ops := ops + [PostInvalidateDelayed(config.animationDelay, InvalidateRegion(f, config.possiblePointSize))];
    }
  }
}
