/** The rotating wireframe solids. A cube is eight corners rotated about the
    vertical axis and projected orthographically; a sphere and a ring are
    approximated by flattened ellipses. Each shape is drawn on a square
    canvas of side `2 * size`, centred at `(size, size)`. */
module Shapes {
  import opened Canvas

  /** The trigonometric functions and the constant pi, supplied by the host. */
  datatype Trig = Trig(pi: real, sin: real -> real, cos: real -> real)

  function Sin(t: Trig, a: real): real { t.sin(a) }

  function Cos(t: Trig, a: real): real { t.cos(a) }

  /** Polar angle of the `i`-th sphere latitude: `i * pi / 8`. */
  function LatitudeAngle(t: Trig, i: nat): real { i as real * t.pi / 8.0 }

  /** Polar angle of the `i`-th ring connector: `(i / 16) * 2 pi`. */
  function ConnectorAngle(t: Trig, i: nat): real { (i as real / 16.0) * t.pi * 2.0 }

  datatype Vec3 = Vec3(x: real, y: real, z: real)

  datatype Shape = Cube | Sphere | Ring

  /** Angle added per frame for a speed multiplier of 1. */
  const AngleStep: real := 0.01

  /** The eight corners of the cube, in the order the edge list refers to them. */
  const Corners: seq<Vec3> := [
    Vec3(-1.0, -1.0, -1.0), Vec3(1.0, -1.0, -1.0), Vec3(1.0, 1.0, -1.0), Vec3(-1.0, 1.0, -1.0),
    Vec3(-1.0, -1.0, 1.0), Vec3(1.0, -1.0, 1.0), Vec3(1.0, 1.0, 1.0), Vec3(-1.0, 1.0, 1.0)
  ]

  /** The twelve edges: bottom face, top face, then the four verticals. */
  const Edges: seq<(nat, nat)> := [
    (0, 1), (1, 2), (2, 3), (3, 0),
    (4, 5), (5, 6), (6, 7), (7, 4),
    (0, 4), (1, 5), (2, 6), (3, 7)
  ]

  predicate Unit1(r: real) { r == 1.0 || r == -1.0 }

  /** Number of coordinates in which two points differ. */
  function Differences(p: Vec3, q: Vec3): nat
  {
    (if p.x != q.x then 1 else 0) + (if p.y != q.y then 1 else 0) + (if p.z != q.z then 1 else 0)
  }

  /** 1 when edge `e` touches vertex `v`, else 0. */
  function Touches(e: (nat, nat), v: nat): nat
  {
    if e.0 == v || e.1 == v then 1 else 0
  }

  /** Number of edges from position `k` of the edge list on that touch vertex `v`. */
  function Degree(v: nat, k: nat): nat
    decreases |Edges| - k
  {
    if k >= |Edges| then 0 else Touches(Edges[k], v) + Degree(v, k + 1)
  }

  /** The eight corners have every coordinate in {-1, 1}. */
  lemma CornersAreUnitCube()
    ensures |Corners| == 8
    ensures forall i :: 0 <= i < 8 ==> Unit1(Corners[i].x) && Unit1(Corners[i].y) && Unit1(Corners[i].z)
  {
  }

  /** The twelve edges join valid corner indices that differ in exactly one coordinate. */
  lemma EdgesAlongAxes()
    ensures |Edges| == 12
    ensures forall k :: 0 <= k < 12 ==> Edges[k].0 < 8 && Edges[k].1 < 8
    ensures forall k :: 0 <= k < 12 ==> Differences(Corners[Edges[k].0], Corners[Edges[k].1]) == 1
  {
  }

  /** Every corner lies on exactly three edges. */
  lemma DegreeThree(v: nat)
    requires v < 8
    ensures Degree(v, 0) == 3
  {
    assert Degree(v, 12) == 0;
    assert Degree(v, 11) == Touches(Edges[11], v) + Degree(v, 12);
    assert Degree(v, 10) == Touches(Edges[10], v) + Degree(v, 11);
    assert Degree(v, 9) == Touches(Edges[9], v) + Degree(v, 10);
    assert Degree(v, 8) == Touches(Edges[8], v) + Degree(v, 9);
    assert Degree(v, 7) == Touches(Edges[7], v) + Degree(v, 8);
    assert Degree(v, 6) == Touches(Edges[6], v) + Degree(v, 7);
    assert Degree(v, 5) == Touches(Edges[5], v) + Degree(v, 6);
    assert Degree(v, 4) == Touches(Edges[4], v) + Degree(v, 5);
    assert Degree(v, 3) == Touches(Edges[3], v) + Degree(v, 4);
    assert Degree(v, 2) == Touches(Edges[2], v) + Degree(v, 3);
    assert Degree(v, 1) == Touches(Edges[1], v) + Degree(v, 2);
    assert Degree(v, 0) == Touches(Edges[0], v) + Degree(v, 1);
  }

  /** Rotation about the vertical axis by the angle whose cosine is `c` and sine `s`. */
  function RotateY(p: Vec3, c: real, s: real): Vec3
  {
    Vec3(p.x * c - p.z * s, p.y, p.x * s + p.z * c)
  }

  /** A genuine rotation leaves the height unchanged and keeps the distance from the axis. */
  lemma RotateKeepsAxisDistance(p: Vec3, c: real, s: real)
    requires c * c + s * s == 1.0
    ensures RotateY(p, c, s).y == p.y
    ensures var q := RotateY(p, c, s); q.x * q.x + q.z * q.z == p.x * p.x + p.z * p.z
  {
    var q := RotateY(p, c, s);
    calc {
      q.x * q.x + q.z * q.z;
      (p.x * c - p.z * s) * (p.x * c - p.z * s) + (p.x * s + p.z * c) * (p.x * s + p.z * c);
      p.x * p.x * (c * c + s * s) + p.z * p.z * (c * c + s * s);
      p.x * p.x + p.z * p.z;
    }
  }

  /** A corner after rotation and projection: x and y are canvas coordinates,
      z is kept but never used for ordering. */
  function ProjectCorner(p: Vec3, size: real, c: real, s: real): Vec3
  {
    var cubeSize := size * 0.6;
    var center := size * 2.0 / 2.0;
    var r := RotateY(p, c, s);
    Vec3(r.x * cubeSize / 2.0 + center, p.y * cubeSize / 2.0 + center, r.z)
  }

  /** All eight projected corners. */
  function ProjectCube(size: real, c: real, s: real): seq<Vec3>
  {
    seq(|Corners|, i requires 0 <= i < |Corners| => ProjectCorner(Corners[i], size, c, s))
  }

  /** The projected height does not depend on the angle: the rotation is about the y axis. */
  lemma ProjectedHeightFixed(size: real, c: real, s: real, i: nat)
    requires i < |Corners|
    ensures ProjectCube(size, c, s)[i].y == Corners[i].y * (size * 0.3) + size
    ensures ProjectCube(size, c, s)[i].y == ProjectCube(size, 1.0, 0.0)[i].y
  {
  }

  /** With a genuine rotation every corner stays at squared distance 2 from the axis. */
  lemma RotatedCornerOnCylinder(c: real, s: real, i: nat)
    requires c * c + s * s == 1.0 && i < |Corners|
    ensures var q := RotateY(Corners[i], c, s); q.x * q.x + q.z * q.z == 2.0
  {
    RotateKeepsAxisDistance(Corners[i], c, s);
  }

  /** At angle 0 the projection is the unit cube scaled by `0.3 * size` about the canvas centre. */
  lemma ProjectAtRest(size: real, i: nat)
    requires i < |Corners|
    ensures ProjectCube(size, 1.0, 0.0)[i]
         == Vec3(Corners[i].x * (size * 0.3) + size, Corners[i].y * (size * 0.3) + size, Corners[i].z)
  {
    var p := Corners[i];
    assert RotateY(p, 1.0, 0.0) == p;
    assert p.x * (size * 0.6) / 2.0 == p.x * (size * 0.3);
  }

  function Flat(p: Vec3): Point { Point(p.x, p.y) }

  /** The cube frame: one segment per edge, in edge-list order, between the projected corners. */
  ghost predicate CubeFrame(cmds: seq<Command>, size: real, c: real, s: real)
  {
    var ps := ProjectCube(size, c, s);
    && |cmds| == |Edges|
    && forall k :: 0 <= k < |Edges| ==>
         Edges[k].0 < |ps| && Edges[k].1 < |ps| &&
         cmds[k] == Segment(Flat(ps[Edges[k].0]), Flat(ps[Edges[k].1]))
  }

  /** Draw the cube at the rotation whose cosine is `c` and sine `s`. */
  method DrawCube(size: real, c: real, s: real) returns (cmds: seq<Command>)
    ensures CubeFrame(cmds, size, c, s)
  {
    var rotated := ProjectCube(size, c, s);
    cmds := [];
    var k := 0;
    while k < |Edges|
      invariant 0 <= k <= |Edges| && |cmds| == k
      invariant forall j :: 0 <= j < k ==> cmds[j] == Segment(Flat(rotated[Edges[j].0]), Flat(rotated[Edges[j].1]))
    {
      var (a, b) := Edges[k];
      cmds := cmds + [Segment(Flat(rotated[a]), Flat(rotated[b]))];
      k := k + 1;
    }
  }

  /** The `i`-th latitude ellipse of the sphere, at polar angle `i * pi / 8`. */
  function Latitude(size: real, rotation: real, t: Trig, i: nat): Command
  {
    var radius := size * 0.6;
    var a := LatitudeAngle(t, i);
    var r := Sin(t, a) * radius;
    var y := Cos(t, a) * radius;
    Ellipse(Point(size * 2.0 / 2.0, size * 2.0 / 2.0 + y), r, r * 0.3, rotation)
  }

  /** Each latitude ellipse is flattened to 0.3 of its width, centred on the
      vertical axis, and turned by the frame's rotation. When the host's sine
      and cosine agree at its polar angle, its rim and height lie on the
      sphere's outline: `rx^2 + dy^2 == (0.6 * size)^2`. */
  lemma LatitudeOnSphere(size: real, rotation: real, t: Trig, i: nat)
    ensures var e := Latitude(size, rotation, t, i);
      && e.Ellipse? && e.ry == 0.3 * e.rx && e.rotation == rotation && e.center.x == size
    ensures var a := LatitudeAngle(t, i);
            var e := Latitude(size, rotation, t, i);
            var dy := e.center.y - size;
      Sin(t, a) * Sin(t, a) + Cos(t, a) * Cos(t, a) == 1.0 ==>
        e.rx * e.rx + dy * dy == (size * 0.6) * (size * 0.6)
  {
    var a := LatitudeAngle(t, i);
    var sn, cs, r := Sin(t, a), Cos(t, a), size * 0.6;
    var e := Latitude(size, rotation, t, i);
    assert e.rx == sn * r && e.center.y - size == cs * r;
    assert (sn * r) * (sn * r) + (cs * r) * (cs * r) == (sn * sn + cs * cs) * (r * r);
  }

  /** The sphere frame: eight latitude ellipses, then one full circle of radius `0.6 * size`. */
  ghost predicate SphereFrame(cmds: seq<Command>, size: real, rotation: real, t: Trig)
  {
    && |cmds| == 9
    && (forall i :: 0 <= i < 8 ==> cmds[i] == Latitude(size, rotation, t, i))
    && cmds[8] == Ellipse(Point(size, size), size * 0.6, size * 0.6, rotation)
  }

  method DrawSphere(size: real, rotation: real, t: Trig) returns (cmds: seq<Command>)
    ensures SphereFrame(cmds, size, rotation, t)
  {
    var radius := size * 0.6;
    cmds := [];
    for i := 0 to 8
      invariant |cmds| == i
      invariant forall j :: 0 <= j < i ==> cmds[j] == Latitude(size, rotation, t, j)
    {
      cmds := cmds + [Latitude(size, rotation, t, i)];
    }
    cmds := cmds + [Ellipse(Point(size * 2.0 / 2.0, size * 2.0 / 2.0), radius, radius, rotation)];
  }

  /** The `i`-th of the sixteen ring connectors, at polar angle `i * 2 pi / 16`,
      from the inner ellipse to the outer one. It does not depend on the rotation. */
  function Connector(size: real, t: Trig, i: nat): Command
  {
    var outer := size * 0.6;
    var inner := outer * 0.6;
    var center := size * 2.0 / 2.0;
    var a := ConnectorAngle(t, i);
    var cos := Cos(t, a);
    var sin := Sin(t, a) * 0.3;
    Segment(Point(center + cos * inner, center + sin * inner),
            Point(center + cos * outer, center + sin * outer))
  }

  /** Each connector's outer end is its inner end pushed out from the centre
      by the ratio of the radii, 1 / 0.6. */
  lemma ConnectorRadial(size: real, t: Trig, i: nat)
    ensures var c := Connector(size, t, i);
            var d, e := Offset(c.from, Point(size, size)), Offset(c.to, Point(size, size));
      c.Segment? && e.x * 0.6 == d.x && e.y * 0.6 == d.y
  {
  }

  /** When the host's sine and cosine agree at the connector's polar angle, its
      ends lie on the inner and outer ellipses as they would be drawn unrotated:
      the connectors do not turn with the rotating ellipses. */
  lemma ConnectorOnEllipses(size: real, t: Trig, i: nat)
    requires size > 0.0
    ensures var a := ConnectorAngle(t, i);
            var c := Connector(size, t, i);
            var d, e := Offset(c.from, Point(size, size)), Offset(c.to, Point(size, size));
            var inner, outer := size * 0.36, size * 0.6;
      Sin(t, a) * Sin(t, a) + Cos(t, a) * Cos(t, a) == 1.0 ==>
        && (d.x / inner) * (d.x / inner) + (d.y / (0.3 * inner)) * (d.y / (0.3 * inner)) == 1.0
        && (e.x / outer) * (e.x / outer) + (e.y / (0.3 * outer)) * (e.y / (0.3 * outer)) == 1.0
  {
    var a := ConnectorAngle(t, i);
    var c := Connector(size, t, i);
    var d, e := Offset(c.from, Point(size, size)), Offset(c.to, Point(size, size));
    var inner, outer := size * 0.36, size * 0.6;
    assert d.x / inner == Cos(t, a) && d.y / (0.3 * inner) == Sin(t, a);
    assert e.x / outer == Cos(t, a) && e.y / (0.3 * outer) == Sin(t, a);
  }

  /** The ring frame: outer and inner flattened ellipses, then sixteen connectors. */
  ghost predicate RingFrame(cmds: seq<Command>, size: real, rotation: real, t: Trig)
  {
    && |cmds| == 18
    && cmds[0] == Ellipse(Point(size, size), size * 0.6, size * 0.6 * 0.3, rotation)
    && cmds[1] == Ellipse(Point(size, size), size * 0.36, size * 0.36 * 0.3, rotation)
    && forall i :: 0 <= i < 16 ==> cmds[2 + i] == Connector(size, t, i)
  }

  method DrawRing(size: real, rotation: real, t: Trig) returns (cmds: seq<Command>)
    ensures RingFrame(cmds, size, rotation, t)
  {
    var center := size * 2.0 / 2.0;
    var outer := size * 0.6;
    var inner := outer * 0.6;
    cmds := [Ellipse(Point(center, center), outer, outer * 0.3, rotation),
             Ellipse(Point(center, center), inner, inner * 0.3, rotation)];
    for i := 0 to 16
      invariant |cmds| == 2 + i
      invariant cmds[0] == Ellipse(Point(size, size), size * 0.6, size * 0.6 * 0.3, rotation)
      invariant cmds[1] == Ellipse(Point(size, size), size * 0.36, size * 0.36 * 0.3, rotation)
      invariant forall j :: 0 <= j < i ==> cmds[2 + j] == Connector(size, t, j)
    {
      cmds := cmds + [Connector(size, t, i)];
    }
  }

  /** Only the two ellipses of a ring frame depend on the rotation: the connectors are the same at every angle. */
  lemma RingConnectorsIgnoreRotation(a: seq<Command>, b: seq<Command>, size: real, r1: real, r2: real, t: Trig)
    requires RingFrame(a, size, r1, t) && RingFrame(b, size, r2, t)
    ensures a[2..] == b[2..]
    ensures a[..2] == b[..2] <==> r1 == r2
  {
    assert |a[2..]| == |b[2..]| == 16;
    forall k | 0 <= k < 16
      ensures a[2..][k] == b[2..][k]
    {
      assert a[2..][k] == a[2 + k] == Connector(size, t, k) == b[2 + k] == b[2..][k];
    }
    if a[..2] == b[..2] {
      assert a[0] == a[..2][0] == b[..2][0] == b[0];
    }
    if r1 == r2 {
      assert a[..2] == [a[0], a[1]] && b[..2] == [b[0], b[1]];
    }
  }

  /** The frame drawn for a shape at a given angle. */
  ghost predicate ShapeFrame(cmds: seq<Command>, shape: Shape, size: real, angle: real, t: Trig)
  {
    match shape
    case Cube => CubeFrame(cmds, size, Cos(t, angle), Sin(t, angle))
    case Sphere => SphereFrame(cmds, size, angle, t)
    case Ring => RingFrame(cmds, size, angle, t)
  }

  /** One rotating shape instance. Shape, size and speed are fixed for its
      lifetime; a change of any of them makes a new instance, starting at angle 0. */
  class RotatingShape {
    const shape: Shape
    const size: real
    const speed: real
    const trig: Trig
    var angle: real
    /** Number of frames drawn so far. */
    ghost var frames: nat

    ghost predicate Valid()
      reads this
    {
      && size >= 0.0
      && angle == frames as real * (AngleStep * speed)
    }

    /** The canvas side is `2 * size`, so the size may not be negative. */
    constructor (shape: Shape, size: real, speed: real, trig: Trig)
      requires size >= 0.0
      ensures Valid()
      ensures this.shape == shape && this.size == size && this.speed == speed && this.trig == trig
      ensures angle == 0.0 && frames == 0
    {
      this.shape := shape;
      this.size := size;
      this.speed := speed;
      this.trig := trig;
      angle := 0.0;
      frames := 0;
    }

    /** One frame: advance the angle, then draw the shape at the new angle,
        so frame `k` (counting from 1) is drawn at `k * 0.01 * speed`. */
    method Animate() returns (frame: seq<Command>)
      requires Valid()
      modifies this
      ensures Valid()
      ensures frames == old(frames) + 1
      ensures angle == old(angle) + AngleStep * speed
      ensures angle == frames as real * (AngleStep * speed)
      ensures ShapeFrame(frame, shape, size, angle, trig)
    {
      angle := angle + AngleStep * speed;
      frames := frames + 1;
      match shape {
        case Cube => frame := DrawCube(size, Cos(trig, angle), Sin(trig, angle));
        case Sphere => frame := DrawSphere(size, angle, trig);
        case Ring => frame := DrawRing(size, angle, trig);
      }
    }
  }
}
