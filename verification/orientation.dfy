/** Rotation handling of the capture screen: the orientation it requests from the window
    manager, and the sensor-driven detector that restarts the screen on a direct
    90-degree to 270-degree flip. */
module Orientation {

  /** Display rotations (android.view.Surface). */
  const Rotation0: int := 0
  const Rotation90: int := 1
  const Rotation180: int := 2
  const Rotation270: int := 3

  /** Requested screen orientations (android.content.pm.ActivityInfo). */
  const ScreenLandscape: int := 0
  const ScreenPortrait: int := 1
  const ScreenReverseLandscape: int := 8
  const ScreenReversePortrait: int := 9

  /** The detector's buckets: "none", a quarter turn and three quarters. */
  const NoBucket: int := -1
  const Bucket90: int := 90
  const Bucket270: int := 270

  /** getCurrentOrientation: the orientation requested for the current display rotation,
      inside the configuration's landscape or portrait family. */
  function CurrentOrientation(rotation: int, landscape: bool): (r: int)
    ensures landscape ==> (r == ScreenLandscape || r == ScreenReverseLandscape)
    ensures !landscape ==> (r == ScreenPortrait || r == ScreenReversePortrait)
    ensures landscape ==> (r == ScreenLandscape <==> rotation == Rotation0 || rotation == Rotation90)
    ensures !landscape ==> (r == ScreenPortrait <==> rotation == Rotation0 || rotation == Rotation270)
  {
    if landscape then
      if rotation == Rotation0 || rotation == Rotation90 then ScreenLandscape else ScreenReverseLandscape
    else
      if rotation == Rotation0 || rotation == Rotation270 then ScreenPortrait else ScreenReversePortrait
  }

  /** A half turn of the display always requests the reverse of the orientation requested
      before it, within the same family. */
  lemma HalfTurnRequestsReverse(rotation: int, landscape: bool)
    requires Rotation0 <= rotation <= Rotation270
    ensures CurrentOrientation(rotation, landscape) != CurrentOrientation((rotation + 2) % 4, landscape)
  {
  }

  /** setLastOrientation: the bucket the sensor reports when the display has the given
      rotation (a display turned by 90 degrees reads 270 on the sensor, and conversely). */
  function LastOrientationFor(rotation: int): (r: int)
    ensures r == NoBucket || r == Bucket90 || r == Bucket270
    ensures r == Bucket270 <==> rotation == Rotation90
    ensures r == Bucket90 <==> rotation == Rotation270
  {
    if rotation == Rotation90 then Bucket270
    else if rotation == Rotation270 then Bucket90
    else NoBucket
  }

  /** The bucket of a raw sensor reading in degrees; both bounds of each range are strict. */
  function Classify(degrees: int): (r: int)
    ensures r == NoBucket || r == Bucket90 || r == Bucket270
    ensures r == Bucket90 <==> 45 < degrees < 135
    ensures r == Bucket270 <==> 225 < degrees < 315
  {
    if 45 < degrees < 135 then Bucket90
    else if 225 < degrees < 315 then Bucket270
    else NoBucket
  }

  /** A restart fires exactly on a direct flip between the two side buckets. */
  predicate Restarts(last: int, bucket: int)
  {
    (bucket == Bucket90 && last == Bucket270) || (bucket == Bucket270 && last == Bucket90)
  }

  /** The restart rule is symmetric and needs the two buckets to be {90, 270}. */
  lemma RestartsIffSideFlip(last: int, degrees: int)
    ensures Restarts(last, Classify(degrees)) <==>
      ({last, Classify(degrees)} == {Bucket90, Bucket270})
  {
    var b := Classify(degrees);
    if {last, b} == {Bucket90, Bucket270} {
      assert last in {Bucket90, Bucket270} && b in {Bucket90, Bucket270};
      assert Bucket90 in {last, b} && Bucket270 in {last, b};
    }
  }

  /** The inner detector class: it keeps the last bucket that caused a restart. */
  class OrientationDetector {
    var lastOrientation: int

    constructor ()
      ensures lastOrientation == NoBucket
    {
      lastOrientation := NoBucket;
    }

    /** Seeds the detector from the display rotation. */
    method SetLastOrientation(rotation: int)
      modifies this
      ensures lastOrientation == LastOrientationFor(rotation)
    {
      if rotation == Rotation90 {
        lastOrientation := Bucket270;
      } else if rotation == Rotation270 {
        lastOrientation := Bucket90;
      } else {
        lastOrientation := NoBucket;
      }
    }

    /** onOrientationChanged: classifies the reading; on a side flip the screen is
        restarted (finish and relaunch with the same intent), reported as `restart`,
        and only then is the new bucket recorded. */
    method OnOrientationChanged(orientation: int) returns (restart: bool)
      modifies this
      ensures restart == Restarts(old(lastOrientation), Classify(orientation))
      ensures lastOrientation == if restart then Classify(orientation) else old(lastOrientation)
    {
      var bucket: int;
      if orientation > 45 && orientation < 135 {
        bucket := Bucket90;
      } else if orientation > 225 && orientation < 315 {
        bucket := Bucket270;
      } else {
        bucket := NoBucket;
      }
      restart := (bucket == Bucket90 && lastOrientation == Bucket270) || (bucket == Bucket270 && lastOrientation == Bucket90);
      if restart {
        lastOrientation := bucket;
      }
    }
  }

  /** The detector's last bucket and the number of restarts after a sequence of readings. */
  function Track(last: int, readings: seq<int>): (int, nat)
    decreases readings
  {
    if readings == [] then (last, 0)
    else
      var b := Classify(readings[0]);
      var next := if Restarts(last, b) then b else last;
      var rest := Track(next, readings[1..]);
      (rest.0, rest.1 + if Restarts(last, b) then 1 else 0)
  }

  /** Starting from "none", as after a natural (upright) display rotation, no sequence of
      readings ever restarts the screen and the bucket stays "none". */
  lemma {:induction false} NoRestartFromNoBucket(readings: seq<int>)
    ensures Track(NoBucket, readings) == (NoBucket, 0)
  {
    if readings != [] {
      NoRestartFromNoBucket(readings[1..]);
    }
  }

  /** The recorded bucket is always one of the three buckets, and it changes only on a
      restart: with no restart the bucket is unchanged. */
  lemma {:induction false} TrackKeepsBucket(last: int, readings: seq<int>)
    requires last == NoBucket || last == Bucket90 || last == Bucket270
    ensures var (l, n) := Track(last, readings);
      && (l == NoBucket || l == Bucket90 || l == Bucket270)
      && (n == 0 ==> l == last)
      && (l != last ==> n > 0)
    decreases readings
  {
    if readings != [] {
      var b := Classify(readings[0]);
      var next := if Restarts(last, b) then b else last;
      TrackKeepsBucket(next, readings[1..]);
    }
  }

  /** A quarter turn followed by a three-quarter turn restarts exactly once when the
      detector was seeded on the 90 side (display rotation 270). */
  lemma FlipRestartsOnce(a: int, b: int)
    requires 45 < a < 135 && 225 < b < 315
    ensures Track(LastOrientationFor(Rotation270), [a, b]) == (Bucket270, 1)
  {
    assert [a, b][1..] == [b];
    assert Track(Bucket270, []) == (Bucket270, 0);
    assert Track(Bucket90, [b]) == (Bucket270, 1);
  }

  /** Side, upright, same side, on either side: no restart when the detector was seeded on
      "none" or on that same side. */
  lemma ThroughUprightNoRestart(a: int, u: int, c: int, last: int)
    requires Classify(a) != NoBucket && Classify(c) == Classify(a) && Classify(u) == NoBucket
    requires last == NoBucket || last == Classify(a)
    ensures Track(last, [a, u, c]) == (last, 0)
  {
    assert [a, u, c][1..] == [u, c];
    assert [u, c][1..] == [c];
    assert Track(last, [c]) == (last, 0);
    assert Track(last, [u, c]) == (last, 0);
  }
}
