/** The highlight that CaptureActivity superimposes on the decoded bitmap: a line for a
    one-dimensional code, two lines for UPC-A / EAN-13 with a supplement, and a dot per
    point otherwise. Canvas calls become a list of draw commands. */
module ResultPoints {
  import opened Barcode

  /** One canvas call on the decoded bitmap: drawLine between two points, or drawPoint. */
  datatype DrawCommand = Line(from: ResultPoint, to: ResultPoint) | Dot(at: ResultPoint)

  /** drawLine: a segment is drawn only when both endpoints are non-null. */
  function LineBetween(a: Option<ResultPoint>, b: Option<ResultPoint>): (r: seq<DrawCommand>)
    ensures |r| <= 1
    ensures r != [] <==> a.Some? && b.Some?
    ensures forall c :: c in r ==> c == Line(a.value, b.value)
  {
    if a.Some? && b.Some? then [Line(a.value, b.value)] else []
  }

  /** The dot drawn for one array entry: none for a null entry. */
  function DotOf(p: Option<ResultPoint>): seq<DrawCommand>
  {
    if p.Some? then [Dot(p.value)] else []
  }

  /** The dots drawn by the fallback loop over the whole point array, in array order. */
  function Dots(points: seq<Option<ResultPoint>>): seq<DrawCommand>
  {
    if points == [] then [] else Dots(points[..|points| - 1]) + DotOf(points[|points| - 1])
  }

  /** The two retail symbologies whose four points are drawn as two lines. */
  predicate IsTwoLineFormat(format: BarcodeFormat)
  {
    format == UpcA || format == Ean13
  }

  /** What drawResultPoints draws for a decode result (null result, null or empty array
      draw nothing). */
  function ResultPointCommands(rawResult: Option<DecodeResult>): seq<DrawCommand>
  {
    match rawResult
    case None => []
    case Some(res) =>
      match res.points
      case None => []
      case Some(pts) =>
        if |pts| == 0 then []
        else if |pts| == 2 then LineBetween(pts[0], pts[1])
        else if |pts| == 4 && IsTwoLineFormat(res.format) then
          LineBetween(pts[0], pts[1]) + LineBetween(pts[2], pts[3])
        else Dots(pts)
  }

  /** drawResultPoints: the branch on the point count and format, and the loop that
      issues one drawPoint per non-null point. */
  method DrawResultPoints(rawResult: Option<DecodeResult>) returns (cmds: seq<DrawCommand>)
    ensures cmds == ResultPointCommands(rawResult)
  {
    cmds := [];
    if rawResult.None? {
      return;
    }
    var res := rawResult.value;
    if res.points.Some? && |res.points.value| > 0 {
      var points := res.points.value;
      if |points| == 2 {
        cmds := LineBetween(points[0], points[1]);
      } else if |points| == 4 && (res.format == UpcA || res.format == Ean13) {
        cmds := LineBetween(points[0], points[1]);
        cmds := cmds + LineBetween(points[2], points[3]);
      } else {
        var i := 0;
        while i < |points|
          invariant 0 <= i <= |points|
          invariant cmds == Dots(points[..i])
        {
          if points[i] != None {
            cmds := cmds + [Dot(points[i].value)];
          }
          assert points[..i + 1][..i] == points[..i];
          i := i + 1;
        }
        assert points[..|points|] == points;
      }
    }
  }

  /** The dots of a concatenation are the dots of each part, in order. */
  lemma {:induction false} DotsAppend(a: seq<Option<ResultPoint>>, b: seq<Option<ResultPoint>>)
    ensures Dots(a + b) == Dots(a) + Dots(b)
  {
    if b == [] {
      assert a + b == a;
    } else {
      var b' := b[..|b| - 1];
      assert (a + b)[..|a + b| - 1] == a + b';
      assert (a + b)[|a + b| - 1] == b[|b| - 1];
      DotsAppend(a, b');
    }
  }

  /** One dot per non-null entry: the number of dots is the array length less its nulls. */
  lemma {:induction false} DotsCount(points: seq<Option<ResultPoint>>)
    ensures |Dots(points)| == |points| - multiset(points)[None]
  {
    if points != [] {
      var init := points[..|points| - 1];
      assert points == init + [points[|points| - 1]];
      DotsCount(init);
    }
  }

  /** Every dot is one of the array's non-null points, and every non-null point gets a dot. */
  lemma {:induction false} DotsArePresentPoints(points: seq<Option<ResultPoint>>)
    ensures forall c :: c in Dots(points) ==> c.Dot? && Some(c.at) in points
    ensures forall k :: 0 <= k < |points| && points[k].Some? ==> Dot(points[k].value) in Dots(points)
  {
    if points != [] {
      var init := points[..|points| - 1];
      assert points == init + [points[|points| - 1]];
      DotsArePresentPoints(init);
      forall k | 0 <= k < |points| && points[k].Some?
        ensures Dot(points[k].value) in Dots(points)
      {
        if k < |points| - 1 {
          assert points[k] == init[k];
        }
      }
    }
  }

  /** A null result, a null array or an empty array draws nothing. */
  lemma NothingToDraw(rawResult: Option<DecodeResult>)
    requires rawResult.None? || rawResult.value.points.None? || rawResult.value.points.value == []
    ensures ResultPointCommands(rawResult) == []
  {
  }

  /** Exactly two points: one line between them, or nothing if either is null. */
  lemma TwoPointsOneLine(res: DecodeResult)
    requires res.points.Some? && |res.points.value| == 2
    ensures var pts := res.points.value;
      ResultPointCommands(Some(res)) ==
        if pts[0].Some? && pts[1].Some? then [Line(pts[0].value, pts[1].value)] else []
  {
  }

  /** Four points of UPC-A or EAN-13: the lines (0,1) and (2,3), each only if both ends exist. */
  lemma FourRetailPointsTwoLines(res: DecodeResult)
    requires res.points.Some? && |res.points.value| == 4 && IsTwoLineFormat(res.format)
    ensures var pts := res.points.value;
      && ResultPointCommands(Some(res)) ==
           (if pts[0].Some? && pts[1].Some? then [Line(pts[0].value, pts[1].value)] else [])
           + (if pts[2].Some? && pts[3].Some? then [Line(pts[2].value, pts[3].value)] else [])
      && (forall c :: c in ResultPointCommands(Some(res)) ==>
            c.Line? &&
            ((Some(c.from) == pts[0] && Some(c.to) == pts[1]) || (Some(c.from) == pts[2] && Some(c.to) == pts[3])))
  {
  }

  /** Every other non-empty case: one dot per non-null point, in array order, and no lines. */
  lemma OtherwiseOneDotPerPoint(res: DecodeResult)
    requires res.points.Some? && |res.points.value| > 0
    requires |res.points.value| != 2
    requires !(|res.points.value| == 4 && IsTwoLineFormat(res.format))
    ensures var cmds := ResultPointCommands(Some(res));
      && cmds == Dots(res.points.value)
      && |cmds| == |res.points.value| - multiset(res.points.value)[None]
      && forall c :: c in cmds ==> c.Dot?
  {
    DotsCount(res.points.value);
    DotsArePresentPoints(res.points.value);
  }

  /** Lines appear only for two points, or four points of the retail pair; and a drawing
      never mixes lines with dots. */
  lemma LinesOnlyForTwoOrFourRetail(rawResult: Option<DecodeResult>)
    ensures var cmds := ResultPointCommands(rawResult);
      (exists c :: c in cmds && c.Line?) ==>
        && rawResult.Some? && rawResult.value.points.Some?
        && (var pts := rawResult.value.points.value;
            |pts| == 2 || (|pts| == 4 && IsTwoLineFormat(rawResult.value.format)))
        && forall c :: c in cmds ==> c.Line?
  {
    if rawResult.Some? && rawResult.value.points.Some? {
      DotsArePresentPoints(rawResult.value.points.value);
    }
  }

  /** Nothing drawn refers to a null entry: every endpoint and every dot is a non-null point
      of the array, and there are never more commands than points. */
  lemma CommandsUsePresentPoints(res: DecodeResult)
    requires res.points.Some?
    ensures var cmds := ResultPointCommands(Some(res));
      && |cmds| <= |res.points.value|
      && forall c :: c in cmds ==>
           if c.Line? then Some(c.from) in res.points.value && Some(c.to) in res.points.value
           else Some(c.at) in res.points.value
  {
    DotsArePresentPoints(res.points.value);
    DotsCount(res.points.value);
  }
}
