/**
 The smooth ("squircle-style") rounded-rectangle outline builder.

 The builder derives a handful of scalar offsets once from the smoothness
 and the radius, then emits the same corner shape at all four corners of
 the rectangle -- a cubic shoulder, a circular arc and a mirrored cubic
 shoulder -- each corner with its own axis swap and sign flip, joined by
 straight edges and traced clockwise, starting on the left edge just below
 the top-left corner.

 The source works in single-precision floating point and calls the C
 library's sin, cos and tan. Here all arithmetic is over `real` and the
 three trigonometric functions are supplied by the caller as a `Trig`
 record, so nothing is assumed about them unless a lemma states it.
 */
module SmoothRoundRect {
  import opened Geometry

  /** The angle at which a corner's shoulder curve hands over to its arc:
      pi/4, as the single-precision value the source stores, scaled by the
      smoothness. */
  function ArcConnectingAngle(smoothness: real): real {
    0.785398185253143310546875 * smoothness
  }

  /** The angle pi/4 in the source's single precision: the hand-off angle
      of a fully smoothed corner. */
  const PiDiv4: real := ArcConnectingAngle(1.0)

  /** The edge-side control point of a shoulder: it sits two thirds of the
      way from the edge connector towards the arc-side control point. */
  function EdgeCurvePoint(edgeConnecting: real, arcCurve: real): real {
    edgeConnecting - (edgeConnecting - arcCurve) * (2.0 / 3.0)
  }

  /** The trigonometric functions the builder calls. */
  datatype Trig = Trig(sin: real -> real, cos: real -> real, tan: real -> real)

  /** The facts about sine, cosine and tangent that bound the offsets, at
      the arc hand-off angle: the sine and cosine of an angle in (0, pi/4]
      and the tangent of half of it all lie in [0, 1]. */
  predicate TrigInRange(trig: Trig, angle: real) {
    && 0.0 <= trig.sin(angle) <= 1.0
    && 0.0 <= trig.cos(angle) <= 1.0
    && 0.0 <= trig.tan(angle / 2.0) <= 1.0
  }

  /** Where the arc starts, measured from the rectangle's corner along the
      edge (x) and across it (y), for the hand-off angle `angle`. */
  function ArcConnectingVector(angle: real, radius: real, trig: Trig): (v: Point)
    requires radius > 0.0
    ensures 0.0 <= trig.sin(angle) <= 1.0 && 0.0 <= trig.cos(angle) <= 1.0 ==>
              0.0 <= v.x <= radius && 0.0 <= v.y <= radius
  {
    var s := trig.sin(angle);
    var c := trig.cos(angle);
    var alongEdge := (1.0 - s) * radius;
    var acrossEdge := (1.0 - c) * radius;
    ComplementScale(s, radius, alongEdge);
    ComplementScale(c, radius, acrossEdge);
    Point(alongEdge, acrossEdge)
  }

  /** How far the arc-side control point of a shoulder lies beyond the arc
      connecting point, along the edge. */
  function CurveOffsetFromConnecting(angle: real, radius: real, trig: Trig): (f: real)
    requires radius > 0.0
    ensures 0.0 <= trig.tan(angle / 2.0) <= 1.0 && 0.0 <= trig.cos(angle) <= 1.0 ==>
              0.0 <= f <= radius
  {
    var t := trig.tan(angle / 2.0);
    var c := trig.cos(angle);
    var f := t * c * radius;
    UnitProductScale(t, c, radius, f);
    f
  }

  /** The debug-checked preconditions of the builder. */
  predicate ValidRequest(width: real, height: real, smoothness: real, radius: real) {
    && width > 0.0
    && height > 0.0
    && 0.0 < smoothness <= 1.0
    && radius > 0.0
  }

  /** The scalar offsets shared by all four corners. Lengths are measured
      from the corner of the rectangle; `arcConnectingVector.x` runs along
      the edge and `.y` across it. */
  datatype Offsets = Offsets(
    roundingSegmentLength: real,
    smoothingRoundingSegmentLength: real,
    edgeConnectingOffset: real,
    arcConnectingAngle: real,
    arcConnectingVector: Point,
    arcCurveOffsetFromConnecting: real,
    arcCurveOffset: real,
    edgeCurveOffset: real)

  /** Derives the shared offsets. The edge connector moves out from one
      radius (plain rounding) towards two radii as the smoothness grows, the
      arc hand-off angle grows from 0 to a quarter turn's half, and the
      edge-side control point is a fixed blend of the edge connector and the
      arc-side control point. */
  function ComputeOffsets(smoothness: real, radius: real, trig: Trig): (o: Offsets)
    requires 0.0 < smoothness <= 1.0 && radius > 0.0
    ensures o.roundingSegmentLength == radius
    ensures o.edgeConnectingOffset == o.smoothingRoundingSegmentLength
    ensures radius < o.edgeConnectingOffset <= 2.0 * radius
    ensures o.edgeConnectingOffset == 2.0 * radius <==> smoothness == 1.0
    ensures 0.0 < o.arcConnectingAngle <= PiDiv4
    ensures o.arcConnectingAngle == PiDiv4 <==> smoothness == 1.0
    ensures o.arcCurveOffset == o.arcConnectingVector.x + o.arcCurveOffsetFromConnecting
    ensures 3.0 * o.edgeCurveOffset == o.edgeConnectingOffset + 2.0 * o.arcCurveOffset
    ensures o.arcCurveOffset <= o.edgeConnectingOffset ==>
              o.arcCurveOffset <= o.edgeCurveOffset <= o.edgeConnectingOffset
    ensures o.edgeConnectingOffset <= o.arcCurveOffset ==>
              o.edgeConnectingOffset <= o.edgeCurveOffset <= o.arcCurveOffset
    ensures TrigInRange(trig, o.arcConnectingAngle) ==>
              && 0.0 <= o.arcConnectingVector.x <= radius
              && 0.0 <= o.arcConnectingVector.y <= radius
              && 0.0 <= o.arcCurveOffsetFromConnecting <= radius
              && 0.0 <= o.arcCurveOffset <= 2.0 * radius
              && 0.0 <= o.edgeCurveOffset <= 2.0 * radius
  {
    // For a right angle the classic rounding length R * sqrt((1 + cos t) / (1 - cos t))
    // is exactly R.
    var roundingSegmentLength := radius;
    var smoothingRoundingSegmentLength := (1.0 + smoothness) * roundingSegmentLength;
    var edgeConnectingOffset := smoothingRoundingSegmentLength;
    var arcConnectingAngle := ArcConnectingAngle(smoothness);
    var arcConnectingVector := ArcConnectingVector(arcConnectingAngle, radius, trig);
    var arcCurveOffsetFromConnecting := CurveOffsetFromConnecting(arcConnectingAngle, radius, trig);
    var arcCurveOffset := arcConnectingVector.x + arcCurveOffsetFromConnecting;
    var edgeCurveOffset := EdgeCurvePoint(smoothingRoundingSegmentLength, arcCurveOffset);
    StretchBounds(smoothness, radius, smoothingRoundingSegmentLength);
    Offsets(roundingSegmentLength, smoothingRoundingSegmentLength, edgeConnectingOffset,
            arcConnectingAngle, arcConnectingVector, arcCurveOffsetFromConnecting,
            arcCurveOffset, edgeCurveOffset)
  }

  /** Stretching the radius by one plus the smoothness gives a length in
      (R, 2R], and exactly 2R only at smoothness 1. */
  lemma StretchBounds(smoothness: real, radius: real, stretched: real)
    requires 0.0 < smoothness <= 1.0 && radius > 0.0
    requires stretched == (1.0 + smoothness) * radius
    ensures radius < stretched <= 2.0 * radius
    ensures stretched == 2.0 * radius <==> smoothness == 1.0
  {
    MulPos(smoothness, radius);
    MulNonneg(1.0 - smoothness, radius);
    if smoothness < 1.0 {
      MulPos(1.0 - smoothness, radius);
    }
  }

  /** The complement of a fraction in [0, 1], applied to a positive
      length, is again at most that length. */
  lemma ComplementScale(a: real, r: real, scaled: real)
    requires r > 0.0 && scaled == (1.0 - a) * r
    ensures 0.0 <= a <= 1.0 ==> 0.0 <= scaled <= r
  {
    if 0.0 <= a <= 1.0 {
      MulNonneg(1.0 - a, r);
      MulNonneg(a, r);
    }
  }

  /** The product of two fractions in [0, 1], applied to a positive length,
      is at most that length. */
  lemma UnitProductScale(t: real, c: real, r: real, scaled: real)
    requires r > 0.0 && scaled == t * c * r
    ensures 0.0 <= t <= 1.0 && 0.0 <= c <= 1.0 ==> 0.0 <= scaled <= r
  {
    if 0.0 <= t <= 1.0 && 0.0 <= c <= 1.0 {
      MulNonneg(t, c);
      MulNonneg(1.0 - t, c);
      MulNonneg(t * c, r);
      MulNonneg(1.0 - t * c, r);
    }
  }

  lemma MulNonneg(a: real, b: real)
    requires 0.0 <= a && 0.0 <= b
    ensures 0.0 <= a * b
  {
  }

  lemma MulPos(a: real, b: real)
    requires 0.0 < a && 0.0 < b
    ensures 0.0 < a * b
  {
  }

  /** The command kinds of one corner: shoulder, arc, shoulder. */
  const CornerKinds: seq<CmdKind> := [CubicKind, ArcKind, CubicKind]

  /** The command kinds of the whole outline: a move and the top-left
      corner, then a straight edge and a corner three times, then close. */
  const OutlineKinds: seq<CmdKind> :=
    ([MoveKind] + CornerKinds)
    + ([LineKind] + CornerKinds)
    + ([LineKind] + CornerKinds)
    + ([LineKind] + CornerKinds)
    + [CloseKind]

  /** True iff `c` is an arc of the builder's fixed shape: circular with the
      given radius, unrotated, the smaller of the two candidate arcs, drawn
      clockwise. */
  predicate RegularArc(c: PathCmd, radius: real) {
    c.ArcTo? && c.radii == Point(radius, radius) && c.rotation == 0.0
    && c.size == SmallArc && c.winding == Clockwise
  }

  /** The upper-left corner: the opening move down the left edge, then the
      corner, leaving along the top edge. */
  function UpperLeftCorner(upperLeft: Point, o: Offsets, radius: real): seq<PathCmd> {
    var v := o.arcConnectingVector;
    [ MoveTo(Add(upperLeft, YPoint(o.edgeConnectingOffset))),
      CubicTo(Add(upperLeft, YPoint(o.edgeCurveOffset)),
              Add(upperLeft, YPoint(o.arcCurveOffset)),
              Add(upperLeft, Point(v.y, v.x))),
      ArcTo(Point(radius, radius), 0.0, SmallArc, Clockwise, Add(upperLeft, v)),
      CubicTo(Add(upperLeft, XPoint(o.arcCurveOffset)),
              Add(upperLeft, XPoint(o.edgeCurveOffset)),
              Add(upperLeft, XPoint(o.edgeConnectingOffset))) ]
  }

  /** The upper-right corner: the top edge, then the corner, leaving down the
      right edge. */
  function UpperRightCorner(upperRight: Point, o: Offsets, radius: real): seq<PathCmd> {
    var v := o.arcConnectingVector;
    [ LineTo(Sub(upperRight, XPoint(o.edgeConnectingOffset))),
      CubicTo(Sub(upperRight, XPoint(o.edgeCurveOffset)),
              Sub(upperRight, XPoint(o.arcCurveOffset)),
              Sub(upperRight, Point(v.x, -v.y))),
      ArcTo(Point(radius, radius), 0.0, SmallArc, Clockwise, Sub(upperRight, Point(v.y, -v.x))),
      CubicTo(Add(upperRight, YPoint(o.arcCurveOffset)),
              Add(upperRight, YPoint(o.edgeCurveOffset)),
              Add(upperRight, YPoint(o.edgeConnectingOffset))) ]
  }

  /** The bottom-right corner: the right edge, then the corner, leaving
      leftward along the bottom edge. */
  function BottomRightCorner(bottomRight: Point, o: Offsets, radius: real): seq<PathCmd> {
    var v := o.arcConnectingVector;
    [ LineTo(Sub(bottomRight, YPoint(o.edgeConnectingOffset))),
      CubicTo(Sub(bottomRight, YPoint(o.edgeCurveOffset)),
              Sub(bottomRight, YPoint(o.arcCurveOffset)),
              Sub(bottomRight, Point(v.y, v.x))),
      ArcTo(Point(radius, radius), 0.0, SmallArc, Clockwise, Sub(bottomRight, v)),
      CubicTo(Sub(bottomRight, XPoint(o.arcCurveOffset)),
              Sub(bottomRight, XPoint(o.edgeCurveOffset)),
              Sub(bottomRight, XPoint(o.edgeConnectingOffset))) ]
  }

  /** The bottom-left corner: the bottom edge, then the corner, leaving up the
      left edge. */
  function BottomLeftCorner(bottomLeft: Point, o: Offsets, radius: real): seq<PathCmd> {
    var v := o.arcConnectingVector;
    [ LineTo(Add(bottomLeft, XPoint(o.edgeConnectingOffset))),
      CubicTo(Add(bottomLeft, XPoint(o.edgeCurveOffset)),
              Add(bottomLeft, XPoint(o.arcCurveOffset)),
              Add(bottomLeft, Point(v.x, -v.y))),
      ArcTo(Point(radius, radius), 0.0, SmallArc, Clockwise, Add(bottomLeft, Point(v.y, -v.x))),
      CubicTo(Sub(bottomLeft, YPoint(o.arcCurveOffset)),
              Sub(bottomLeft, YPoint(o.edgeCurveOffset)),
              Sub(bottomLeft, YPoint(o.edgeConnectingOffset))) ]
  }

  /** The outline, built corner by corner in the order and with the exact
      point arithmetic of the source: it starts on the left edge one edge
      connector below the top-left corner, its last explicit point is one
      edge connector above the bottom-left corner, and `Close` draws the left
      edge back to the start. */
  function CalculateSmoothRoundRect(x: real, y: real, width: real, height: real,
                                    smoothness: real, radius: real, trig: Trig): (path: seq<PathCmd>)
    requires ValidRequest(width, height, smoothness, radius)
    ensures |path| == 17
    ensures path[0] == MoveTo(Point(x, y + ComputeOffsets(smoothness, radius, trig).edgeConnectingOffset))
    ensures path[15].CubicTo? && path[15].pt == Point(x, y + height - ComputeOffsets(smoothness, radius, trig).edgeConnectingOffset)
    ensures path[16] == Close
    ensures forall i | 0 <= i < |path| && path[i].ArcTo? :: RegularArc(path[i], radius)
  {
    var o := ComputeOffsets(smoothness, radius, trig);
    UpperLeftCorner(Point(x, y), o, radius)
    + UpperRightCorner(Point(x + width, y), o, radius)
    + BottomRightCorner(Point(x + width, y + height), o, radius)
    + BottomLeftCorner(Point(x, y + height), o, radius)
    + [Close]
  }

  // ---------------------------------------------------------------------
  // The same outline from a single corner builder.
  // ---------------------------------------------------------------------

  /** How one corner is oriented: where it is and the direction in which the
      outline travels along the edge that arrives at it. The outline leaves
      the corner a quarter turn clockwise from that direction. */
  datatype CornerFrame = CornerFrame(corner: Point, travel: Dir)

  /** Inward along the arriving edge, back the way the outline came. */
  function Back(f: CornerFrame): Dir {
    Opposite(f.travel)
  }

  /** Inward along the leaving edge. */
  function Out(f: CornerFrame): Dir {
    TurnCW(f.travel)
  }

  /** The point `alongBack` from the corner along the arriving edge and
      `alongOut` along the leaving edge. */
  function At(f: CornerFrame, alongBack: real, alongOut: real): Point {
    Step(Step(f.corner, Back(f), alongBack), Out(f), alongOut)
  }

  /** Where the straight arriving edge hands over to the corner. */
  function Entry(f: CornerFrame, o: Offsets): Point {
    At(f, o.edgeConnectingOffset, 0.0)
  }

  /** Where the corner hands over to the straight leaving edge. */
  function Exit(f: CornerFrame, o: Offsets): Point {
    At(f, 0.0, o.edgeConnectingOffset)
  }

  /** The three commands of one corner, drawn from `Entry` to `Exit`. */
  function CornerCurve(f: CornerFrame, o: Offsets, radius: real): seq<PathCmd> {
    var v := o.arcConnectingVector;
    [ CubicTo(At(f, o.edgeCurveOffset, 0.0), At(f, o.arcCurveOffset, 0.0), At(f, v.x, v.y)),
      ArcTo(Point(radius, radius), 0.0, SmallArc, Clockwise, At(f, v.y, v.x)),
      CubicTo(At(f, 0.0, o.arcCurveOffset), At(f, 0.0, o.edgeCurveOffset),
              At(f, 0.0, o.edgeConnectingOffset)) ]
  }

  /** The four corners in drawing order: top-left, top-right, bottom-right,
      bottom-left. */
  function Frames(x: real, y: real, width: real, height: real): seq<CornerFrame> {
    [ CornerFrame(Point(x, y), MinusY),
      CornerFrame(Point(x + width, y), PlusX),
      CornerFrame(Point(x + width, y + height), PlusY),
      CornerFrame(Point(x, y + height), MinusX) ]
  }

  /** The outline from the single corner builder: move to the first corner's
      entry, draw it, then a straight edge and a corner for each of the other
      three, then close back along the left edge. */
  function CornerOutline(x: real, y: real, width: real, height: real,
                         o: Offsets, radius: real): seq<PathCmd>
  {
    var fs := Frames(x, y, width, height);
    ([MoveTo(Entry(fs[0], o))] + CornerCurve(fs[0], o, radius))
    + ([LineTo(Entry(fs[1], o))] + CornerCurve(fs[1], o, radius))
    + ([LineTo(Entry(fs[2], o))] + CornerCurve(fs[2], o, radius))
    + ([LineTo(Entry(fs[3], o))] + CornerCurve(fs[3], o, radius))
    + [Close]
  }
}
