/**
 Properties of the smooth rounded-rectangle outline: the shape of the
 offsets, the command sequence, where the outline starts and how it closes,
 the arcs, the straight edges, the symmetry of each corner and of a square,
 and containment in the rectangle.
 */
module SmoothRoundRectProperties {
  import opened Geometry
  import opened SmoothRoundRect

  // ---------------------------------------------------------------------
  // Offsets
  // ---------------------------------------------------------------------

  /** With the radius fixed, a smoother corner reaches further along each
      edge and hands over to its arc at a larger angle. */
  lemma SmoothnessGrowsShoulder(s1: real, s2: real, radius: real, trig: Trig)
    requires 0.0 < s1 < s2 <= 1.0 && radius > 0.0
    ensures ComputeOffsets(s1, radius, trig).edgeConnectingOffset
            < ComputeOffsets(s2, radius, trig).edgeConnectingOffset
    ensures ComputeOffsets(s1, radius, trig).arcConnectingAngle
            < ComputeOffsets(s2, radius, trig).arcConnectingAngle
  {
    var e1 := ComputeOffsets(s1, radius, trig).edgeConnectingOffset;
    var e2 := ComputeOffsets(s2, radius, trig).edgeConnectingOffset;
    StretchMonotone(s1, s2, radius, e1, e2);
  }

  lemma StretchMonotone(s1: real, s2: real, radius: real, e1: real, e2: real)
    requires s1 < s2 && radius > 0.0
    requires e1 == (1.0 + s1) * radius && e2 == (1.0 + s2) * radius
    ensures e1 < e2
  {
    MulPos(s2 - s1, radius);
  }

  /** A 200 by 100 rectangle at the origin with
      smoothness 0.6 and radius 20 reaches 32 along each edge and starts at
      (0, 32). */
  lemma ConcreteScenario(trig: Trig)
    ensures var o := ComputeOffsets(0.6, 20.0, trig);
            && o.roundingSegmentLength == 20.0
            && o.smoothingRoundingSegmentLength == 32.0
            && o.edgeConnectingOffset == 32.0
            && o.arcConnectingAngle == 0.471238911151885986328125
    ensures CalculateSmoothRoundRect(0.0, 0.0, 200.0, 100.0, 0.6, 20.0, trig)[0]
            == MoveTo(Point(0.0, 32.0))
  {
  }

  // ---------------------------------------------------------------------
  // Command sequence
  // ---------------------------------------------------------------------

  /** The outline is a move and the top-left corner (cubic, arc, cubic),
      then a straight edge and a corner three times, then a close. */
  lemma CommandSequence(x: real, y: real, width: real, height: real,
                        smoothness: real, radius: real, trig: Trig)
    requires ValidRequest(width, height, smoothness, radius)
    ensures Kinds(CalculateSmoothRoundRect(x, y, width, height, smoothness, radius, trig)) == OutlineKinds
  {
    var o := ComputeOffsets(smoothness, radius, trig);
    var ul := UpperLeftCorner(Point(x, y), o, radius);
    var ur := UpperRightCorner(Point(x + width, y), o, radius);
    var br := BottomRightCorner(Point(x + width, y + height), o, radius);
    var bl := BottomLeftCorner(Point(x, y + height), o, radius);
    CornerKindsOf(Point(x, y), Point(x + width, y), Point(x + width, y + height),
                  Point(x, y + height), o, radius);
    assert Kinds([Close]) == [CloseKind];
    KindsAppend(ul, ur);
    KindsAppend(ul + ur, br);
    KindsAppend(ul + ur + br, bl);
    KindsAppend(ul + ur + br + bl, [Close]);
  }

  /** Each hand-written corner is its entry command followed by a shoulder,
      an arc and a shoulder. */
  lemma CornerKindsOf(ul: Point, ur: Point, br: Point, bl: Point, o: Offsets, radius: real)
    ensures Kinds(UpperLeftCorner(ul, o, radius)) == [MoveKind] + CornerKinds
    ensures Kinds(UpperRightCorner(ur, o, radius)) == [LineKind] + CornerKinds
    ensures Kinds(BottomRightCorner(br, o, radius)) == [LineKind] + CornerKinds
    ensures Kinds(BottomLeftCorner(bl, o, radius)) == [LineKind] + CornerKinds
  {
  }

  /** The outline holds one move, three lines, eight cubics, four arcs and
      one close. */
  lemma CommandCounts(x: real, y: real, width: real, height: real,
                      smoothness: real, radius: real, trig: Trig)
    requires ValidRequest(width, height, smoothness, radius)
    ensures var ks := multiset(Kinds(CalculateSmoothRoundRect(x, y, width, height, smoothness, radius, trig)));
            && ks[MoveKind] == 1 && ks[LineKind] == 3 && ks[CubicKind] == 8
            && ks[ArcKind] == 4 && ks[CloseKind] == 1
  {
    CommandSequence(x, y, width, height, smoothness, radius, trig);
    OutlineKindCounts();
  }

  lemma OutlineKindCounts()
    ensures var ks := multiset(OutlineKinds);
            && ks[MoveKind] == 1 && ks[LineKind] == 3 && ks[CubicKind] == 8
            && ks[ArcKind] == 4 && ks[CloseKind] == 1
  {
    var m := multiset(CornerKinds);
    assert m == multiset{CubicKind, ArcKind, CubicKind};
    var first := multiset([MoveKind] + CornerKinds);
    var next := multiset([LineKind] + CornerKinds);
    assert first == multiset{MoveKind} + m;
    assert next == multiset{LineKind} + m;
    assert multiset(OutlineKinds) == first + next + next + next + multiset{CloseKind};
  }

  // ---------------------------------------------------------------------
  // The builder as one corner drawn four times
  // ---------------------------------------------------------------------

  /** Each hand-written corner of the source is the single corner builder
      applied to that corner's frame, preceded by the command that reaches
      its entry point. */
  lemma HandWrittenCornersAreFrames(x: real, y: real, width: real, height: real, o: Offsets, radius: real)
    ensures var fs := Frames(x, y, width, height);
            && UpperLeftCorner(Point(x, y), o, radius)
               == [MoveTo(Entry(fs[0], o))] + CornerCurve(fs[0], o, radius)
            && UpperRightCorner(Point(x + width, y), o, radius)
               == [LineTo(Entry(fs[1], o))] + CornerCurve(fs[1], o, radius)
            && BottomRightCorner(Point(x + width, y + height), o, radius)
               == [LineTo(Entry(fs[2], o))] + CornerCurve(fs[2], o, radius)
            && BottomLeftCorner(Point(x, y + height), o, radius)
               == [LineTo(Entry(fs[3], o))] + CornerCurve(fs[3], o, radius)
  {
  }

  /** The literal four-corner transcription and the single corner builder
      draw the same outline. */
  lemma BuilderIsCornerOutline(x: real, y: real, width: real, height: real,
                               smoothness: real, radius: real, trig: Trig)
    requires ValidRequest(width, height, smoothness, radius)
    ensures CalculateSmoothRoundRect(x, y, width, height, smoothness, radius, trig)
            == CornerOutline(x, y, width, height, ComputeOffsets(smoothness, radius, trig), radius)
  {
    HandWrittenCornersAreFrames(x, y, width, height, ComputeOffsets(smoothness, radius, trig), radius);
  }

  /** Where each corner sits in the corner-built outline: command 4i enters
      corner i (a move for the first, a straight edge for the rest) and
      commands 4i+1 to 4i+3 are that corner's curve. */
  lemma CornerOutlineLayout(x: real, y: real, width: real, height: real, o: Offsets, radius: real)
    ensures var path := CornerOutline(x, y, width, height, o, radius);
            var fs := Frames(x, y, width, height);
            && |path| == 17
            && path[0] == MoveTo(Entry(fs[0], o))
            && (forall i | 1 <= i < 4 :: path[4 * i] == LineTo(Entry(fs[i], o)))
            && (forall i | 0 <= i < 4 :: path[4 * i + 1 .. 4 * i + 4] == CornerCurve(fs[i], o, radius))
            && path[16] == Close
  {
  }

  /** Corner `g` follows corner `f`: the outline turns a quarter turn
      clockwise between them, and `g` lies `side` further on in the new
      direction of travel. */
  predicate Follows(f: CornerFrame, g: CornerFrame, side: real) {
    && g.travel == TurnCW(f.travel)
    && g.corner == Step(f.corner, g.travel, side)
  }

  /** Walking the corners in drawing order turns clockwise a quarter turn at
      each, and each corner is one side of the rectangle further along the
      direction the outline travels. */
  lemma FramesGoClockwise(x: real, y: real, width: real, height: real)
    ensures var fs := Frames(x, y, width, height);
            && Follows(fs[0], fs[1], width)
            && Follows(fs[1], fs[2], height)
            && Follows(fs[2], fs[3], width)
            && Follows(fs[3], fs[0], height)
  {
  }

  /** Consecutive corners are joined by a straight edge along the side
      between them: the next corner's entry lies straight ahead of this
      corner's exit, the side's length less two edge connectors away. */
  lemma EdgeJoinsCorners(f: CornerFrame, g: CornerFrame, side: real, o: Offsets)
    requires Follows(f, g, side)
    ensures Entry(g, o) == Step(Exit(f, o), g.travel, side - 2.0 * o.edgeConnectingOffset)
  {
    match f.travel
    case PlusX =>
    case MinusX =>
    case PlusY =>
    case MinusY =>
  }

  /** Along the whole outline, each corner's exit leads straight to the
      next corner's entry: the edge between them runs in the next corner's
      direction of travel and is the side's length less two edge
      connectors long. */
  lemma OutlineEdgesJoinCorners(x: real, y: real, width: real, height: real, o: Offsets)
    ensures var fs := Frames(x, y, width, height);
            var e := o.edgeConnectingOffset;
            && Entry(fs[1], o) == Step(Exit(fs[0], o), fs[1].travel, width - 2.0 * e)
            && Entry(fs[2], o) == Step(Exit(fs[1], o), fs[2].travel, height - 2.0 * e)
            && Entry(fs[3], o) == Step(Exit(fs[2], o), fs[3].travel, width - 2.0 * e)
            && Entry(fs[0], o) == Step(Exit(fs[3], o), fs[0].travel, height - 2.0 * e)
  {
    var fs := Frames(x, y, width, height);
    FramesGoClockwise(x, y, width, height);
    EdgeJoinsCorners(fs[0], fs[1], width, o);
    EdgeJoinsCorners(fs[1], fs[2], height, o);
    EdgeJoinsCorners(fs[2], fs[3], width, o);
    EdgeJoinsCorners(fs[3], fs[0], height, o);
  }

  // ---------------------------------------------------------------------
  // Start, straight edges and closing edge
  // ---------------------------------------------------------------------

  /** The size assumption of the source: each side has room for the two
      corners at its ends. */
  predicate FitsCorners(width: real, height: real, smoothness: real, radius: real) {
    && 2.0 * ((1.0 + smoothness) * radius) <= width
    && 2.0 * ((1.0 + smoothness) * radius) <= height
  }

  /** The three straight edges drawn with `LineTo` and the edge `Close`
      supplies each run along one side of the rectangle -- top, right,
      bottom, left -- and, when the rectangle fits the corners, each runs
      clockwise with non-negative length. */
  lemma StraightEdges(x: real, y: real, width: real, height: real,
                      smoothness: real, radius: real, trig: Trig)
    requires ValidRequest(width, height, smoothness, radius)
    ensures var p := CalculateSmoothRoundRect(x, y, width, height, smoothness, radius, trig);
            && p[4].LineTo? && p[8].LineTo? && p[12].LineTo? && p[16].Close?
            && p[3].pt.y == y && p[4].pt.y == y
            && p[7].pt.x == x + width && p[8].pt.x == x + width
            && p[11].pt.y == y + height && p[12].pt.y == y + height
            && p[15].pt.x == x && p[0].pt.x == x
    ensures FitsCorners(width, height, smoothness, radius) ==>
            var p := CalculateSmoothRoundRect(x, y, width, height, smoothness, radius, trig);
            && p[3].pt.x <= p[4].pt.x
            && p[7].pt.y <= p[8].pt.y
            && p[12].pt.x <= p[11].pt.x
            && p[0].pt.y <= p[15].pt.y
  {
  }

  // ---------------------------------------------------------------------
  // Arcs
  // ---------------------------------------------------------------------

  /** Each corner's arc is a regular arc of the corner radius that runs from
      the point the arc connecting vector gives, measured inward from that
      corner, to the point its component-swapped copy gives. */
  lemma ArcEndpoints(x: real, y: real, width: real, height: real,
                     smoothness: real, radius: real, trig: Trig)
    requires ValidRequest(width, height, smoothness, radius)
    ensures var p := CalculateSmoothRoundRect(x, y, width, height, smoothness, radius, trig);
            var v := ComputeOffsets(smoothness, radius, trig).arcConnectingVector;
            var fs := Frames(x, y, width, height);
            forall i | 0 <= i < 4 ::
              && RegularArc(p[4 * i + 2], radius)
              && p[4 * i + 1].pt == At(fs[i], v.x, v.y)
              && p[4 * i + 2].pt == At(fs[i], v.y, v.x)
  {
    BuilderIsCornerOutline(x, y, width, height, smoothness, radius, trig);
    CornerOutlineArcs(x, y, width, height, ComputeOffsets(smoothness, radius, trig), radius);
  }

  /** The arcs of the corner-built outline, for any offsets. */
  lemma CornerOutlineArcs(x: real, y: real, width: real, height: real, o: Offsets, radius: real)
    ensures var p := CornerOutline(x, y, width, height, o, radius);
            var fs := Frames(x, y, width, height);
            forall i | 0 <= i < 4 ::
              && RegularArc(p[4 * i + 2], radius)
              && p[4 * i + 1].pt == At(fs[i], o.arcConnectingVector.x, o.arcConnectingVector.y)
              && p[4 * i + 2].pt == At(fs[i], o.arcConnectingVector.y, o.arcConnectingVector.x)
  {
    var p := CornerOutline(x, y, width, height, o, radius);
    var fs := Frames(x, y, width, height);
    CornerOutlineLayout(x, y, width, height, o, radius);
    forall i | 0 <= i < 4
      ensures && RegularArc(p[4 * i + 2], radius)
              && p[4 * i + 1].pt == At(fs[i], o.arcConnectingVector.x, o.arcConnectingVector.y)
              && p[4 * i + 2].pt == At(fs[i], o.arcConnectingVector.y, o.arcConnectingVector.x)
    {
      var curve := p[4 * i + 1 .. 4 * i + 4];
      assert curve == CornerCurve(fs[i], o, radius);
      assert p[4 * i + 1] == curve[0] && p[4 * i + 2] == curve[1];
    }
  }

  // ---------------------------------------------------------------------
  // Symmetry of one corner
  // ---------------------------------------------------------------------

  /** The reflection of `p` across the bisector of the corner: the distances
      along the two edges trade places. */
  function Mirror(f: CornerFrame, p: Point): Point {
    var d := Sub(p, f.corner);
    At(f, Along(d, Out(f)), Along(d, Back(f)))
  }

  lemma MirrorAt(f: CornerFrame, a: real, b: real)
    ensures Mirror(f, At(f, a, b)) == At(f, b, a)
  {
    match f.travel
    case PlusX =>
    case MinusX =>
    case PlusY =>
    case MinusY =>
  }

  /** Every corner is symmetric about its bisector: reflecting it swaps the
      entry and the exit, the arc's two ends, and the two shoulders' control
      points in reverse order. */
  lemma CornerIsSymmetric(f: CornerFrame, o: Offsets, radius: real)
    ensures var c := CornerCurve(f, o, radius);
            && Mirror(f, Entry(f, o)) == Exit(f, o)
            && Mirror(f, Exit(f, o)) == Entry(f, o)
            && Mirror(f, c[0].c1) == c[2].c2
            && Mirror(f, c[0].c2) == c[2].c1
            && Mirror(f, c[0].pt) == c[1].pt
            && Mirror(f, c[1].pt) == c[0].pt
  {
    var v := o.arcConnectingVector;
    MirrorAt(f, o.edgeConnectingOffset, 0.0);
    MirrorAt(f, 0.0, o.edgeConnectingOffset);
    MirrorAt(f, o.edgeCurveOffset, 0.0);
    MirrorAt(f, o.arcCurveOffset, 0.0);
    MirrorAt(f, v.x, v.y);
    MirrorAt(f, v.y, v.x);
  }

  // ---------------------------------------------------------------------
  // Symmetry of a square
  // ---------------------------------------------------------------------

  /** A quarter turn clockwise (on screen) about `center`. */
  function RotateCW(center: Point, p: Point): Point {
    Point(center.x - (p.y - center.y), center.y + (p.x - center.x))
  }

  function RotateCmd(center: Point, c: PathCmd): PathCmd {
    match c
    case MoveTo(p) => MoveTo(RotateCW(center, p))
    case LineTo(p) => LineTo(RotateCW(center, p))
    case CubicTo(a, b, p) => CubicTo(RotateCW(center, a), RotateCW(center, b), RotateCW(center, p))
    case ArcTo(radii, rotation, size, winding, p) => ArcTo(radii, rotation, size, winding, RotateCW(center, p))
    case Close => Close
  }

  function RotateCmds(center: Point, cs: seq<PathCmd>): seq<PathCmd> {
    seq(|cs|, k requires 0 <= k < |cs| => RotateCmd(center, cs[k]))
  }

  /** The frame of a corner after a quarter turn about `center`. */
  function RotateFrame(center: Point, f: CornerFrame): CornerFrame {
    CornerFrame(RotateCW(center, f.corner), TurnCW(f.travel))
  }

  lemma RotateAt(center: Point, f: CornerFrame, a: real, b: real)
    ensures RotateCW(center, At(f, a, b)) == At(RotateFrame(center, f), a, b)
  {
    match f.travel
    case PlusX =>
    case MinusX =>
    case PlusY =>
    case MinusY =>
  }

  /** Rotating a corner's curve is drawing the curve of the rotated corner. */
  lemma RotateCorner(center: Point, f: CornerFrame, o: Offsets, radius: real)
    ensures RotateCmds(center, CornerCurve(f, o, radius)) == CornerCurve(RotateFrame(center, f), o, radius)
    ensures RotateCW(center, Entry(f, o)) == Entry(RotateFrame(center, f), o)
  {
    var v := o.arcConnectingVector;
    RotateAt(center, f, o.edgeConnectingOffset, 0.0);
    RotateAt(center, f, 0.0, o.edgeConnectingOffset);
    RotateAt(center, f, o.edgeCurveOffset, 0.0);
    RotateAt(center, f, 0.0, o.edgeCurveOffset);
    RotateAt(center, f, o.arcCurveOffset, 0.0);
    RotateAt(center, f, 0.0, o.arcCurveOffset);
    RotateAt(center, f, v.x, v.y);
    RotateAt(center, f, v.y, v.x);
  }

  /** For a square, a quarter turn about its center carries each corner --
      its entry point and all three of its commands -- onto the next corner
      in drawing order. */
  lemma SquareCornersAreRotations(x: real, y: real, side: real, o: Offsets, radius: real)
    ensures var fs := Frames(x, y, side, side);
            var center := Point(x + side / 2.0, y + side / 2.0);
            forall i | 0 <= i < 4 ::
              && RotateCW(center, Entry(fs[i], o)) == Entry(fs[(i + 1) % 4], o)
              && RotateCmds(center, CornerCurve(fs[i], o, radius)) == CornerCurve(fs[(i + 1) % 4], o, radius)
  {
    var fs := Frames(x, y, side, side);
    var center := Point(x + side / 2.0, y + side / 2.0);
    forall i | 0 <= i < 4
      ensures RotateCW(center, Entry(fs[i], o)) == Entry(fs[(i + 1) % 4], o)
      ensures RotateCmds(center, CornerCurve(fs[i], o, radius)) == CornerCurve(fs[(i + 1) % 4], o, radius)
    {
      assert RotateFrame(center, fs[i]) == fs[(i + 1) % 4];
      RotateCorner(center, fs[i], o, radius);
    }
  }

  // ---------------------------------------------------------------------
  // Containment
  // ---------------------------------------------------------------------

  /** A point measured inward from one of the four corners by lengths that
      fit both sides lies in the rectangle. */
  lemma AtInBox(x: real, y: real, width: real, height: real, i: int, a: real, b: real)
    requires 0 <= i < 4
    requires 0.0 <= a <= width && a <= height
    requires 0.0 <= b <= width && b <= height
    ensures InBox(At(Frames(x, y, width, height)[i], a, b), x, y, width, height)
  {
  }

  /** The offsets of one corner are lengths that fit both sides. */
  predicate OffsetsFit(o: Offsets, width: real, height: real) {
    var v := o.arcConnectingVector;
    && 0.0 <= o.edgeConnectingOffset <= width && o.edgeConnectingOffset <= height
    && 0.0 <= o.edgeCurveOffset <= width && o.edgeCurveOffset <= height
    && 0.0 <= o.arcCurveOffset <= width && o.arcCurveOffset <= height
    && 0.0 <= v.x <= width && v.x <= height
    && 0.0 <= v.y <= width && v.y <= height
  }

  /** Every point of a corner curve lies in the rectangle when its offsets
      fit both sides. */
  lemma CornerInBox(x: real, y: real, width: real, height: real, i: int, o: Offsets, radius: real)
    requires 0 <= i < 4
    requires OffsetsFit(o, width, height)
    ensures var f := Frames(x, y, width, height)[i];
            && InBox(Entry(f, o), x, y, width, height)
            && forall c, p | c in CornerCurve(f, o, radius) && p in CmdPoints(c) ::
                 InBox(p, x, y, width, height)
  {
    var v := o.arcConnectingVector;
    AtInBox(x, y, width, height, i, o.edgeConnectingOffset, 0.0);
    AtInBox(x, y, width, height, i, 0.0, o.edgeConnectingOffset);
    AtInBox(x, y, width, height, i, o.edgeCurveOffset, 0.0);
    AtInBox(x, y, width, height, i, 0.0, o.edgeCurveOffset);
    AtInBox(x, y, width, height, i, o.arcCurveOffset, 0.0);
    AtInBox(x, y, width, height, i, 0.0, o.arcCurveOffset);
    AtInBox(x, y, width, height, i, v.x, v.y);
    AtInBox(x, y, width, height, i, v.y, v.x);
  }

  /** Every point of the corner-built outline lies in the rectangle when the
      offsets fit both sides. */
  lemma CornerOutlineInBox(x: real, y: real, width: real, height: real, o: Offsets, radius: real)
    requires OffsetsFit(o, width, height)
    ensures forall c, p | c in CornerOutline(x, y, width, height, o, radius) && p in CmdPoints(c) ::
              InBox(p, x, y, width, height)
  {
    var fs := Frames(x, y, width, height);
    CornerInBox(x, y, width, height, 0, o, radius);
    CornerInBox(x, y, width, height, 1, o, radius);
    CornerInBox(x, y, width, height, 2, o, radius);
    CornerInBox(x, y, width, height, 3, o, radius);
  }

  /** When the rectangle fits the corners and the trigonometric values at
      the hand-off angle are in range, every point the outline mentions --
      end points and control points alike -- lies in the rectangle. */
  lemma Containment(x: real, y: real, width: real, height: real,
                    smoothness: real, radius: real, trig: Trig)
    requires ValidRequest(width, height, smoothness, radius)
    requires FitsCorners(width, height, smoothness, radius)
    requires TrigInRange(trig, ArcConnectingAngle(smoothness))
    ensures var path := CalculateSmoothRoundRect(x, y, width, height, smoothness, radius, trig);
            forall c, p | c in path && p in CmdPoints(c) :: InBox(p, x, y, width, height)
  {
    var o := ComputeOffsets(smoothness, radius, trig);
    assert 2.0 * radius <= width && 2.0 * radius <= height;
    assert OffsetsFit(o, width, height);
    BuilderIsCornerOutline(x, y, width, height, smoothness, radius, trig);
    CornerOutlineInBox(x, y, width, height, o, radius);
  }
}
