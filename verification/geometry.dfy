/**
 Plane geometry and the path commands of a 2-D vector outline.

 Coordinates are screen coordinates: x grows to the right and y grows
 downward, so a quarter turn "clockwise" takes +X to +Y.
 */
module Geometry {

  datatype Point = Point(x: real, y: real)

  function Add(p: Point, q: Point): Point {
    Point(p.x + q.x, p.y + q.y)
  }

  function Sub(p: Point, q: Point): Point {
    Point(p.x - q.x, p.y - q.y)
  }

  /** A vector lying on the X axis. */
  function XPoint(v: real): Point {
    Point(v, 0.0)
  }

  /** A vector lying on the Y axis. */
  function YPoint(v: real): Point {
    Point(0.0, v)
  }

  /** The four axis directions. */
  datatype Dir = PlusX | MinusX | PlusY | MinusY

  function Opposite(d: Dir): Dir {
    match d
    case PlusX => MinusX
    case MinusX => PlusX
    case PlusY => MinusY
    case MinusY => PlusY
  }

  /** The direction a quarter turn clockwise (on screen) from `d`. */
  function TurnCW(d: Dir): Dir {
    match d
    case PlusX => PlusY
    case PlusY => MinusX
    case MinusX => MinusY
    case MinusY => PlusX
  }

  /** The point `len` units away from `p` in direction `d`. */
  function Step(p: Point, d: Dir, len: real): Point {
    match d
    case PlusX => Point(p.x + len, p.y)
    case MinusX => Point(p.x - len, p.y)
    case PlusY => Point(p.x, p.y + len)
    case MinusY => Point(p.x, p.y - len)
  }

  /** The signed component of the vector `v` along direction `d`. */
  function Along(v: Point, d: Dir): real {
    match d
    case PlusX => v.x
    case MinusX => -v.x
    case PlusY => v.y
    case MinusY => -v.y
  }

  datatype ArcSize = SmallArc | LargeArc

  datatype Winding = Clockwise | CounterClockwise

  /** One drawing command of an outline. Every command except `Close`
      carries the point it ends at in `pt`. */
  datatype PathCmd =
    | MoveTo(pt: Point)
    | LineTo(pt: Point)
    | CubicTo(c1: Point, c2: Point, pt: Point)
    | ArcTo(radii: Point, rotation: real, size: ArcSize, winding: Winding, pt: Point)
    | Close

  datatype CmdKind = MoveKind | LineKind | CubicKind | ArcKind | CloseKind

  function KindOf(c: PathCmd): CmdKind {
    match c
    case MoveTo(_) => MoveKind
    case LineTo(_) => LineKind
    case CubicTo(_, _, _) => CubicKind
    case ArcTo(_, _, _, _, _) => ArcKind
    case Close => CloseKind
  }

  /** The kind of every command of a path, in order. */
  function Kinds(path: seq<PathCmd>): (ks: seq<CmdKind>)
    ensures |ks| == |path|
    ensures forall i | 0 <= i < |path| :: ks[i] == KindOf(path[i])
  {
    if path == [] then [] else [KindOf(path[0])] + Kinds(path[1..])
  }

  /** The kinds of a joined path are the joined kinds. */
  lemma {:induction false} KindsAppend(a: seq<PathCmd>, b: seq<PathCmd>)
    ensures Kinds(a + b) == Kinds(a) + Kinds(b)
  {
    if a == [] {
      assert a + b == b;
    } else {
      assert (a + b)[1..] == a[1..] + b;
      KindsAppend(a[1..], b);
    }
  }

  /** Every point a command mentions: control points and end point. */
  function CmdPoints(c: PathCmd): seq<Point> {
    match c
    case MoveTo(p) => [p]
    case LineTo(p) => [p]
    case CubicTo(a, b, p) => [a, b, p]
    case ArcTo(_, _, _, _, p) => [p]
    case Close => []
  }

  /** True iff `p` lies in the closed axis-aligned box with top-left corner
      (x, y) and the given extent. */
  predicate InBox(p: Point, x: real, y: real, width: real, height: real) {
    x <= p.x <= x + width && y <= p.y <= y + height
  }
}
