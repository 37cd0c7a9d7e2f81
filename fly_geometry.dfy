/**
 * Geometry of the fly animation: the anchor resolver, which turns a target
 * element's bounding box into a container-relative centre point, and the path
 * sampler, which turns a cubic Bezier curve into top-left keyframes for the
 * sprite.
 *
 * Layout rectangles are inputs (what `getBoundingClientRect` would report at
 * the moment of the call); coordinates are exact reals.
 */
module FlyGeometry {
  import opened Wrappers

  /** The symbolic anchor names the animation flies between. */
  datatype TargetKey = Ipad | Cta | Pill

  datatype Point = Point(x: real, y: real)

  /** A bounding box as the DOM reports it: left/top corner and size. */
  datatype Rect = Rect(left: real, top: real, width: real, height: real)

  /** A per-target pixel offset; either component may be left unspecified. */
  datatype Offset = Offset(x: Option<real>, y: Option<real>)

  /** `v || 0` for an optional offset component. */
  function OrZero(v: Option<real>): real {
    if v.Some? then v.value else 0.0
  }

  /** The offset recorded for `key`, or the zero offset when the map is absent or has no entry. */
  function OffsetFor(key: TargetKey, offsets: Option<map<TargetKey, Offset>>): (o: Offset)
    ensures offsets.None? || key !in offsets.value ==> OrZero(o.x) == 0.0 && OrZero(o.y) == 0.0
  {
    if offsets.Some? && key in offsets.value then offsets.value[key] else Offset(Some(0.0), Some(0.0))
  }

  /**
   * The anchor resolver. `targets` maps a key to its ref: a missing key is a
   * missing ref, `None` is a ref whose element is not mounted. `container` is
   * the container element's box, `None` when it is not mounted.
   */
  function GetAbsolutePosition(
    key: TargetKey,
    targets: map<TargetKey, Option<Rect>>,
    offsets: Option<map<TargetKey, Offset>>,
    container: Option<Rect>
  ): (r: Option<Point>)
    ensures r.None? <==> container.None? || key !in targets || targets[key].None?
    ensures r.Some? ==>
      var target, box, off := targets[key].value, container.value, OffsetFor(key, offsets);
      && r.value.x == target.left - box.left + target.width / 2.0 + OrZero(off.x)
      && r.value.y == target.top - box.top + target.height / 2.0 + OrZero(off.y)
  {
    if container.None? || key !in targets || targets[key].None? then
      None
    else
      var box := container.value;
      var target := targets[key].value;
      var off := OffsetFor(key, offsets);
      Some(Point(target.left - box.left + target.width / 2.0 + OrZero(off.x),
                 target.top - box.top + target.height / 2.0 + OrZero(off.y)))
  }

  function Shift(r: Rect, dx: real, dy: real): Rect {
    Rect(r.left + dx, r.top + dy, r.width, r.height)
  }

  /** The resolved point depends only on where the target lies relative to the container. */
  lemma PositionIsTranslationInvariant(
    key: TargetKey, targets: map<TargetKey, Option<Rect>>, offsets: Option<map<TargetKey, Offset>>,
    container: Rect, dx: real, dy: real)
    requires key in targets && targets[key].Some?
    ensures
      var moved := targets[key := Some(Shift(targets[key].value, dx, dy))];
      GetAbsolutePosition(key, moved, offsets, Some(Shift(container, dx, dy)))
        == GetAbsolutePosition(key, targets, offsets, Some(container))
  {
    var moved := targets[key := Some(Shift(targets[key].value, dx, dy))];
    var a := GetAbsolutePosition(key, moved, offsets, Some(Shift(container, dx, dy)));
    var b := GetAbsolutePosition(key, targets, offsets, Some(container));
    assert a.Some? && b.Some?;
    assert a.value.x == b.value.x && a.value.y == b.value.y;
  }

  /**
   * Without an offset the resolved point is the midpoint of the target's left
   * and right edges (and of its top and bottom edges), in container coordinates.
   */
  lemma UnoffsetPositionIsCentre(key: TargetKey, targets: map<TargetKey, Option<Rect>>, container: Rect)
    requires key in targets && targets[key].Some?
    ensures
      var t := targets[key].value;
      var p := GetAbsolutePosition(key, targets, None, Some(container));
      && p.Some?
      && p.value.x - (t.left - container.left) == (t.left + t.width - container.left) - p.value.x
      && p.value.y - (t.top - container.top) == (t.top + t.height - container.top) - p.value.y
  {
  }

  /** The point of a cubic Bezier curve with control points p0..p3 at parameter t. */
  function BezierAt(p0: Point, p1: Point, p2: Point, p3: Point, t: real): Point {
    var mt := 1.0 - t;
    Point(mt * mt * mt * p0.x + 3.0 * mt * mt * t * p1.x + 3.0 * mt * t * t * p2.x + t * t * t * p3.x,
          mt * mt * mt * p0.y + 3.0 * mt * mt * t * p1.y + 3.0 * mt * t * t * p2.y + t * t * t * p3.y)
  }

  lemma BezierStartsAtFirstPoint(p0: Point, p1: Point, p2: Point, p3: Point)
    ensures BezierAt(p0, p1, p2, p3, 0.0) == p0
  {
  }

  lemma BezierEndsAtLastPoint(p0: Point, p1: Point, p2: Point, p3: Point)
    ensures BezierAt(p0, p1, p2, p3, 1.0) == p3
  {
  }

  /** The cubic Bernstein weights sum to one. */
  lemma BernsteinPartitionOfUnity(t: real)
    ensures (1.0 - t) * (1.0 - t) * (1.0 - t) + 3.0 * (1.0 - t) * (1.0 - t) * t
            + 3.0 * (1.0 - t) * t * t + t * t * t == 1.0
  {
    var mt := 1.0 - t;
    assert mt + t == 1.0;
    calc {
      mt * mt * mt + 3.0 * mt * mt * t + 3.0 * mt * t * t + t * t * t;
      (mt + t) * (mt + t) * (mt + t);
      1.0;
    }
  }

  /**
   * When all four control points lie on one horizontal line, so does every
   * point of the curve (a curve with no perpendicular displacement between two
   * anchors at the same height stays on that height).
   */
  lemma BezierStaysOnHorizontalLine(p0: Point, p1: Point, p2: Point, p3: Point, t: real)
    requires p1.y == p0.y && p2.y == p0.y && p3.y == p0.y
    ensures BezierAt(p0, p1, p2, p3, t).y == p0.y
  {
    var mt := 1.0 - t;
    BernsteinPartitionOfUnity(t);
    calc {
      BezierAt(p0, p1, p2, p3, t).y;
      mt * mt * mt * p0.y + 3.0 * mt * mt * t * p0.y + 3.0 * mt * t * t * p0.y + t * t * t * p0.y;
      (mt * mt * mt + 3.0 * mt * mt * t + 3.0 * mt * t * t + t * t * t) * p0.y;
      p0.y;
    }
  }

  /**
   * The six `Math.random()` draws of one path, in the order the sampler makes
   * them: the offset factors of P1 and P2 along the chord, then the
   * perpendicular displacements of P1 (x, then y) and of P2 (x, then y).
   */
  datatype Draws = Draws(cp1Offset: real, cp2Offset: real, p1x: real, p1y: real, p2x: real, p2y: real)

  /**
   * The control points as the sampler computes them. `magnitude` is the
   * distance from P0 to P3 (the source's `Math.sqrt` of the squared distance),
   * of which the model uses only that it is non-negative and zero exactly when
   * the two points coincide.
   * The perpendicular is the chord direction turned by a right angle and
   * divided by that distance; when P0 and P3 coincide this is 0 / 0 and every
   * coordinate computed from it is NaN, which `None` stands for here.
   */
  function ControlPointsAsWritten(p0: Point, p3: Point, d: Draws, randomnessFactor: real, magnitude: real): (r: Option<(Point, Point)>)
    requires magnitude >= 0.0 && (magnitude == 0.0 <==> p0 == p3)
    ensures r.None? <==> p0 == p3
  {
    var delta := Point(p3.x - p0.x, p3.y - p0.y);
    if magnitude == 0.0 then
      None
    else
      var perp := Point(-delta.y / magnitude, delta.x / magnitude);
      var f1, f2 := 0.1 + d.cp1Offset * 0.2, 0.1 + d.cp2Offset * 0.2;
      Some((Point(p0.x + delta.x * f1 + perp.x * (d.p1x - 0.5) * magnitude * randomnessFactor,
                  p0.y + delta.y * f1 + perp.y * (d.p1y - 0.5) * magnitude * randomnessFactor),
            Point(p3.x - delta.x * f2 + perp.x * (d.p2x - 0.5) * magnitude * randomnessFactor,
                  p3.y - delta.y * f2 + perp.y * (d.p2y - 0.5) * magnitude * randomnessFactor)))
  }

  /**
   * The control points with the normalisation cancelled: the unit
   * perpendicular times the distance is the chord turned by a right angle,
   * (-delta.y, delta.x), so nothing is divided by the distance. P1 lies a
   * fraction between 0.1 and 0.3 (for draws in [0, 1)) along the chord from
   * P0, P2 the same from P3, each pushed sideways by up to half the
   * randomness factor times the chord.
   */
  function ControlPoints(p0: Point, p3: Point, d: Draws, randomnessFactor: real): (r: (Point, Point))
    // a flight from a point to itself gets both control points on that point
    ensures p0 == p3 ==> r == (p0, p0)
    // without randomness a level chord keeps level control points, a vertical one vertical
    ensures randomnessFactor == 0.0 && p0.y == p3.y ==> r.0.y == p0.y && r.1.y == p0.y
    ensures randomnessFactor == 0.0 && p0.x == p3.x ==> r.0.x == p0.x && r.1.x == p0.x
  {
    var delta := Point(p3.x - p0.x, p3.y - p0.y);
    var f1, f2 := 0.1 + d.cp1Offset * 0.2, 0.1 + d.cp2Offset * 0.2;
    var k := randomnessFactor;
    (Point(p0.x + Along(delta.x, f1) + Sideways(-delta.y, d.p1x, k),
           p0.y + Along(delta.y, f1) + Sideways(delta.x, d.p1y, k)),
     Point(p3.x - Along(delta.x, f2) + Sideways(-delta.y, d.p2x, k),
           p3.y - Along(delta.y, f2) + Sideways(delta.x, d.p2y, k)))
  }

  /** A chord component `c` scaled by an offset factor. */
  function Along(c: real, factor: real): (r: real)
    ensures c == 0.0 ==> r == 0.0
  {
    c * factor
  }

  /**
   * The sideways push from a component `c` of the turned chord: the draw
   * centred on zero, times the randomness factor.
   */
  function Sideways(c: real, draw: real, randomnessFactor: real): (r: real)
    ensures c == 0.0 || randomnessFactor == 0.0 ==> r == 0.0
  {
    c * (draw - 0.5) * randomnessFactor
  }

  /** The source's unit perpendicular times the chord length is the turned chord itself. */
  lemma CancelMagnitude(c: real, draw: real, randomnessFactor: real, m: real)
    requires m != 0.0
    ensures (c / m) * (draw - 0.5) * m * randomnessFactor == Sideways(c, draw, randomnessFactor)
  {
    var e := draw - 0.5;
    assert (c / m) * m == c;
    calc {
      (c / m) * e * m * randomnessFactor;
      ((c / m) * m) * e * randomnessFactor;
      c * e * randomnessFactor;
    }
  }

  /** Wherever the source's control points are defined, they are the corrected ones. */
  lemma ControlPointsAgreeWhenDistinct(p0: Point, p3: Point, d: Draws, randomnessFactor: real, magnitude: real)
    requires magnitude >= 0.0 && (magnitude == 0.0 <==> p0 == p3)
    requires p0 != p3
    ensures ControlPointsAsWritten(p0, p3, d, randomnessFactor, magnitude) == Some(ControlPoints(p0, p3, d, randomnessFactor))
  {
    var dx, dy, m, k := p3.x - p0.x, p3.y - p0.y, magnitude, randomnessFactor;
    CancelMagnitude(-dy, d.p1x, k, m);
    CancelMagnitude(dx, d.p1y, k, m);
    CancelMagnitude(-dy, d.p2x, k, m);
    CancelMagnitude(dx, d.p2y, k, m);
    var w := ControlPointsAsWritten(p0, p3, d, k, m).value;
    var c := ControlPoints(p0, p3, d, k);
    assert w.0.x == c.0.x && w.0.y == c.0.y;
    assert w.1.x == c.1.x && w.1.y == c.1.y;
  }

  /** The three parallel arrays handed to the animation library. */
  datatype Keyframes = Keyframes(xKeyframes: seq<real>, yKeyframes: seq<real>, times: seq<real>)

  /** The i-th sample time of a path with `numSamples` samples. */
  function SampleTime(i: int, numSamples: int): real
    requires numSamples != 0
  {
    i as real / numSamples as real
  }

  /**
   * The specification of the sampled path: entry i of each array comes from
   * the curve at t = i / numSamples, moved by half the sprite size so that it
   * is the sprite's top-left corner. A negative `numSamples` runs the loop no
   * times.
   */
  function CurvedPathKeyframes(
    p0: Point, p1: Point, p2: Point, p3: Point, flyWidth: real, flyHeight: real, numSamples: int
  ): Keyframes
    requires numSamples != 0
  {
    var count := if numSamples < 0 then 0 else numSamples + 1;
    Keyframes(
      seq(count, i requires 0 <= i < count => BezierAt(p0, p1, p2, p3, SampleTime(i, numSamples)).x - flyWidth / 2.0),
      seq(count, i requires 0 <= i < count => BezierAt(p0, p1, p2, p3, SampleTime(i, numSamples)).y - flyHeight / 2.0),
      seq(count, i requires 0 <= i < count => SampleTime(i, numSamples)))
  }

  /**
   * The path sampler. `startPos` and `endPos` are P0 and P3; the control
   * points P1 and P2 come from `ControlPoints` and the draws.
   */
  method GenerateCurvedPathKeyframes(
    startPos: Point, endPos: Point, flyWidth: real, flyHeight: real,
    randomnessFactor: real, numSamples: int, draws: Draws
  ) returns (xKeyframes: seq<real>, yKeyframes: seq<real>, times: seq<real>)
    requires numSamples != 0
    ensures var cp := ControlPoints(startPos, endPos, draws, randomnessFactor);
      Keyframes(xKeyframes, yKeyframes, times)
        == CurvedPathKeyframes(startPos, cp.0, cp.1, endPos, flyWidth, flyHeight, numSamples)
  {
    var cp := ControlPoints(startPos, endPos, draws, randomnessFactor);
    var p1, p2 := cp.0, cp.1;
    xKeyframes, yKeyframes, times := [], [], [];
    var i := 0;
    while i <= numSamples
      invariant numSamples < 0 ==> i == 0
      invariant numSamples >= 0 ==> 0 <= i <= numSamples + 1
      invariant |xKeyframes| == i && |yKeyframes| == i && |times| == i
      invariant forall k :: 0 <= k < i ==>
        && times[k] == SampleTime(k, numSamples)
        && xKeyframes[k] == BezierAt(startPos, p1, p2, endPos, SampleTime(k, numSamples)).x - flyWidth / 2.0
        && yKeyframes[k] == BezierAt(startPos, p1, p2, endPos, SampleTime(k, numSamples)).y - flyHeight / 2.0
    {
      var t := SampleTime(i, numSamples);
      var b := BezierAt(startPos, p1, p2, endPos, t);
      xKeyframes := xKeyframes + [b.x - flyWidth / 2.0];
      yKeyframes := yKeyframes + [b.y - flyHeight / 2.0];
      times := times + [t];
      i := i + 1;
    }
  }

  /** Every array holds numSamples + 1 entries. */
  lemma KeyframeLengths(p0: Point, p1: Point, p2: Point, p3: Point, w: real, h: real, numSamples: int)
    requires numSamples >= 1
    ensures
      var k := CurvedPathKeyframes(p0, p1, p2, p3, w, h, numSamples);
      |k.xKeyframes| == numSamples + 1 && |k.yKeyframes| == numSamples + 1 && |k.times| == numSamples + 1
  {
  }

  /** The times run from 0 to 1 inclusive and strictly increase. */
  lemma TimesSpanUnitInterval(p0: Point, p1: Point, p2: Point, p3: Point, w: real, h: real, numSamples: int)
    requires numSamples >= 1
    ensures
      var ts := CurvedPathKeyframes(p0, p1, p2, p3, w, h, numSamples).times;
      && |ts| == numSamples + 1
      && ts[0] == 0.0 && ts[numSamples] == 1.0
      && (forall i :: 0 <= i < |ts| ==> 0.0 <= ts[i] <= 1.0)
      && (forall i, j :: 0 <= i < j < |ts| ==> ts[i] < ts[j])
  {
    var ts := CurvedPathKeyframes(p0, p1, p2, p3, w, h, numSamples).times;
    assert forall i :: 0 <= i < |ts| ==> ts[i] == SampleTime(i, numSamples);
    assert ts[0] == 0.0 by { assert SampleTime(0, numSamples) == 0.0; }
    assert ts[numSamples] == 1.0 by { LastSampleTimeIsOne(numSamples); }
    forall i | 0 <= i < |ts| ensures 0.0 <= ts[i] <= 1.0 {
      SampleTimeBounds(i, numSamples);
    }
    forall i, j | 0 <= i < j < |ts| ensures ts[i] < ts[j] {
      SampleTimeMonotone(i, j, numSamples);
    }
  }

  lemma LastSampleTimeIsOne(numSamples: int)
    requires numSamples >= 1
    ensures SampleTime(numSamples, numSamples) == 1.0
  {
    var n := numSamples as real;
    var t := SampleTime(numSamples, numSamples);
    assert t * n == n;
    assert (t - 1.0) * n == 0.0;
  }

  lemma SampleTimeBounds(i: int, numSamples: int)
    requires numSamples >= 1 && 0 <= i <= numSamples
    ensures 0.0 <= SampleTime(i, numSamples) <= 1.0
  {
    var n := numSamples as real;
    var t := SampleTime(i, numSamples);
    assert t * n == i as real;
  }

  lemma SampleTimeMonotone(i: int, j: int, numSamples: int)
    requires numSamples >= 1 && i < j
    ensures SampleTime(i, numSamples) < SampleTime(j, numSamples)
  {
    var n := numSamples as real;
    var a, b := SampleTime(i, numSamples), SampleTime(j, numSamples);
    assert a * n == i as real && b * n == j as real;
    assert (b - a) * n == (j - i) as real;
  }

  /** The first keyframe is the start point moved to the sprite's top-left corner. */
  lemma FirstKeyframeIsStart(p0: Point, p1: Point, p2: Point, p3: Point, w: real, h: real, numSamples: int)
    requires numSamples >= 1
    ensures
      var k := CurvedPathKeyframes(p0, p1, p2, p3, w, h, numSamples);
      k.xKeyframes[0] == p0.x - w / 2.0 && k.yKeyframes[0] == p0.y - h / 2.0
  {
    assert SampleTime(0, numSamples) == 0.0;
    BezierStartsAtFirstPoint(p0, p1, p2, p3);
  }

  /** The last keyframe is the end point moved to the sprite's top-left corner. */
  lemma LastKeyframeIsEnd(p0: Point, p1: Point, p2: Point, p3: Point, w: real, h: real, numSamples: int)
    requires numSamples >= 1
    ensures
      var k := CurvedPathKeyframes(p0, p1, p2, p3, w, h, numSamples);
      && |k.xKeyframes| == |k.yKeyframes| == numSamples + 1
      && k.xKeyframes[numSamples] == p3.x - w / 2.0 && k.yKeyframes[numSamples] == p3.y - h / 2.0
  {
    LastSampleTimeIsOne(numSamples);
    BezierEndsAtLastPoint(p0, p1, p2, p3);
  }

  /**
   * With start, end and both control points at one height (a level flight
   * with no perpendicular displacement) every y keyframe is that height less
   * half the sprite height.
   */
  lemma LevelPathKeepsHeight(p0: Point, p1: Point, p2: Point, p3: Point, w: real, h: real, numSamples: int)
    requires numSamples >= 1
    requires p1.y == p0.y && p2.y == p0.y && p3.y == p0.y
    ensures
      var ys := CurvedPathKeyframes(p0, p1, p2, p3, w, h, numSamples).yKeyframes;
      forall i :: 0 <= i < |ys| ==> ys[i] == p0.y - h / 2.0
  {
    var ys := CurvedPathKeyframes(p0, p1, p2, p3, w, h, numSamples).yKeyframes;
    forall i | 0 <= i < |ys| ensures ys[i] == p0.y - h / 2.0 {
      BezierStaysOnHorizontalLine(p0, p1, p2, p3, SampleTime(i, numSamples));
    }
  }

  /** A curve whose four control points are one point is that point throughout. */
  lemma BezierOfOnePoint(p: Point, t: real)
    ensures BezierAt(p, p, p, p, t) == p
  {
    var mt := 1.0 - t;
    BernsteinPartitionOfUnity(t);
    var w := mt * mt * mt + 3.0 * mt * mt * t + 3.0 * mt * t * t + t * t * t;
    assert BezierAt(p, p, p, p, t).x == w * p.x;
    assert BezierAt(p, p, p, p, t).y == w * p.y;
  }

  /**
   * With the corrected control points, a flight from a point to itself keeps
   * the sprite still: every keyframe is that point's top-left corner.
   */
  lemma StationaryPathStaysPut(p: Point, d: Draws, randomnessFactor: real, w: real, h: real, numSamples: int)
    requires numSamples >= 1
    ensures
      var cp := ControlPoints(p, p, d, randomnessFactor);
      var k := CurvedPathKeyframes(p, cp.0, cp.1, p, w, h, numSamples);
      && |k.xKeyframes| == |k.yKeyframes| == numSamples + 1
      && (forall i :: 0 <= i < |k.xKeyframes| ==> k.xKeyframes[i] == p.x - w / 2.0)
      && (forall i :: 0 <= i < |k.yKeyframes| ==> k.yKeyframes[i] == p.y - h / 2.0)
  {
    var cp := ControlPoints(p, p, d, randomnessFactor);
    var k := CurvedPathKeyframes(p, cp.0, cp.1, p, w, h, numSamples);
    forall i | 0 <= i < numSamples + 1
      ensures k.xKeyframes[i] == p.x - w / 2.0 && k.yKeyframes[i] == p.y - h / 2.0
    {
      BezierOfOnePoint(p, SampleTime(i, numSamples));
    }
  }

  /**
   * With randomness factor 0, a flight between two anchors at the same height
   * stays at that height: every y keyframe is it less half the sprite height.
   */
  lemma LevelFlightWithoutRandomness(p0: Point, p3: Point, d: Draws, w: real, h: real, numSamples: int)
    requires numSamples >= 1 && p0.y == p3.y
    ensures
      var cp := ControlPoints(p0, p3, d, 0.0);
      var ys := CurvedPathKeyframes(p0, cp.0, cp.1, p3, w, h, numSamples).yKeyframes;
      forall i :: 0 <= i < |ys| ==> ys[i] == p0.y - h / 2.0
  {
    var cp := ControlPoints(p0, p3, d, 0.0);
    LevelPathKeepsHeight(p0, cp.0, cp.1, p3, w, h, numSamples);
  }
}
