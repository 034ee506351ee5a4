/** Plane geometry shared by the vertex emitters of the drawing modules: 2-d vectors
    over the reals, the axis-aligned rectangle types, the six-vertex triangle lists
    for rectangles and thick lines, the evenly spaced points of a dotted line, and
    the column-major 3x3 camera matrix of the point shaders. */
module Geometry {
  import opened Base

  datatype Vec2 = Vec2(x: real, y: real)

  function Add(a: Vec2, b: Vec2): Vec2 { Vec2(a.x + b.x, a.y + b.y) }
  function Sub(a: Vec2, b: Vec2): Vec2 { Vec2(a.x - b.x, a.y - b.y) }
  function Scale(a: Vec2, s: real): Vec2 { Vec2(a.x * s, a.y * s) }

  /** `axgeom::Range<f32>` and `axgeom::Rect<f32>`: a rectangle given by its two intervals. */
  datatype Range = Range(start: real, end: real)
  datatype AxRect = AxRect(x: Range, y: Range)

  /** The drawing modules' `Rect`: a corner and a size. */
  datatype Rect = Rect(x: real, y: real, w: real, h: real)

  /** `From<axgeom::Rect<f32>> for Rect`: the corner is where both ranges start, and the
      size reaches exactly to where they end. */
  function RectFrom(a: AxRect): (r: Rect)
    ensures r.x == a.x.start && r.y == a.y.start
    ensures r.x + r.w == a.x.end && r.y + r.h == a.y.end
  {
    Rect(a.x.start, a.y.start, a.x.end - a.x.start, a.y.end - a.y.start)
  }

  /** The six vertices `rect` emits: the triangles (top-left, top-right, bottom-left)
      and (top-right, bottom-right, bottom-left). */
  function RectVertices(r: Rect): (v: seq<Vec2>)
    ensures |v| == 6
    ensures v[0] == Vec2(r.x, r.y) && v[4] == Vec2(r.x + r.w, r.y + r.h)
    ensures v[1] == v[3] == Vec2(r.x + r.w, r.y)
    ensures v[2] == v[5] == Vec2(r.x, r.y + r.h)
  {
    var start := Vec2(r.x, r.y);
    var dim := Vec2(r.w, r.h);
    [start, Add(start, Vec2(dim.x, 0.0)), Add(start, Vec2(0.0, dim.y)),
     Add(start, Vec2(dim.x, 0.0)), Add(start, dim), Add(start, Vec2(0.0, dim.y))]
  }

  /** Twice the signed area of triangle (a, b, c). */
  function Area2(a: Vec2, b: Vec2, c: Vec2): real
  {
    (b.x - a.x) * (c.y - a.y) - (b.y - a.y) * (c.x - a.x)
  }

  /** The two rectangle triangles wind the same way and together cover the area w*h:
      each has twice-signed-area w*h, and they share the diagonal from vertex 1 to vertex 2. */
  lemma RectTrianglesTile(r: Rect)
    ensures var v := RectVertices(r);
      && Area2(v[0], v[1], v[2]) == r.w * r.h
      && Area2(v[3], v[4], v[5]) == r.w * r.h
      && {v[1], v[2]} <= {v[3], v[4], v[5]}
  {
    var v := RectVertices(r);
    calc {
      Area2(v[3], v[4], v[5]);
      (r.x + r.w - (r.x + r.w)) * (r.y + r.h - r.y) - (r.y + r.h - r.y) * (r.x - (r.x + r.w));
      r.w * r.h;
    }
  }

  /** A rectangle built from an `axgeom` rectangle emits exactly the four corners of the
      original intervals, no other point. */
  lemma RectFromCorners(a: AxRect)
    ensures var v := RectVertices(RectFrom(a));
      (set k | 0 <= k < 6 :: v[k]) ==
        {Vec2(a.x.start, a.y.start), Vec2(a.x.end, a.y.start),
         Vec2(a.x.start, a.y.end), Vec2(a.x.end, a.y.end)}
  {
    var v := RectVertices(RectFrom(a));
    var corners := {Vec2(a.x.start, a.y.start), Vec2(a.x.end, a.y.start),
                    Vec2(a.x.start, a.y.end), Vec2(a.x.end, a.y.end)};
    assert v[1] == Vec2(a.x.end, a.y.start) && v[2] == Vec2(a.x.start, a.y.end);
    assert v[4] == Vec2(a.x.end, a.y.end);
    assert forall k | 0 <= k < 6 :: v[k] in corners;
    assert v[0] in (set k | 0 <= k < 6 :: v[k]);
    assert v[1] in (set k | 0 <= k < 6 :: v[k]);
    assert v[2] in (set k | 0 <= k < 6 :: v[k]);
    assert v[4] in (set k | 0 <= k < 6 :: v[k]);
  }

  /** The six vertices `line` emits for a segment from `start` to `end`, where `k` is the
      unit normal of the segment and `radius` half the thickness: the triangles
      (start1, start2, end1) and (start2, end1, end2). */
  function LineVertices(start: Vec2, end: Vec2, k: Vec2, radius: real): (v: seq<Vec2>)
    ensures |v| == 6
  {
    var start1 := Add(start, Scale(k, radius));
    var start2 := Sub(start, Scale(k, radius));
    var end1 := Add(end, Scale(k, radius));
    var end2 := Sub(end, Scale(k, radius));
    [start1, start2, end1, start2, end1, end2]
  }

  function Mid(a: Vec2, b: Vec2): Vec2 { Vec2((a.x + b.x) / 2.0, (a.y + b.y) / 2.0) }

  /** The line's triangles share the edge start2-end1 (vertices 2 and 4, 3 and 5 in
      one-based order), and the quad they form is centred on the segment: the two start
      vertices straddle `start`, the two end vertices straddle `end`, each pair is
      `2*radius` apart along `k`. */
  lemma LineQuad(start: Vec2, end: Vec2, k: Vec2, radius: real)
    ensures var v := LineVertices(start, end, k, radius);
      && v[1] == v[3] && v[2] == v[4]
      && Mid(v[0], v[1]) == start && Mid(v[2], v[5]) == end
      && Sub(v[0], v[1]) == Scale(k, 2.0 * radius)
      && Sub(v[2], v[5]) == Scale(k, 2.0 * radius)
  {
  }

  /** Number of points of a dotted line: `(dis / radius).floor() as usize`. In floating
      point a zero radius makes the quotient infinite when `dis > 0`, which the cast
      saturates to `usize::MAX`, and not-a-number when `dis == 0`, which it casts to 0. */
  function NumPoints(dis: real, radius: real): (n: nat)
    requires dis >= 0.0
    ensures n <= USIZE_MAX
    ensures radius == 0.0 ==> n == (if dis > 0.0 then USIZE_MAX else 0)
    ensures radius < 0.0 ==> n == 0
    ensures radius > 0.0 && dis < radius ==> n == 0
    ensures radius > 0.0 ==> n as real * radius <= dis
    ensures radius > 0.0 && n < USIZE_MAX ==> dis < (n + 1) as real * radius
  {
    if radius == 0.0 then (if dis > 0.0 then USIZE_MAX else 0)
    else
      var q := dis / radius;
      var n := UsizeFromReal(q.Floor as real);
      if radius > 0.0 then
        assert q >= 0.0;
        assert dis < radius ==> q < 1.0 by {
          if dis < radius { QuotientBelowOne(dis, radius); }
        }
        assert n as real <= q by {
          if q.Floor as real >= USIZE_MAX as real { assert n as real == USIZE_MAX as real; }
        }
        QuotientBound(dis, radius, n);
        n
      else
        assert q <= 0.0;
        n
  }

  lemma QuotientBelowOne(dis: real, radius: real)
    requires 0.0 < radius && dis < radius
    ensures dis / radius < 1.0
  {
    var q := dis / radius;
    assert q * radius == dis;
    assert (1.0 - q) * radius == radius - dis;
  }

  lemma QuotientBound(dis: real, radius: real, n: nat)
    requires radius > 0.0 && n as real <= dis / radius
    ensures n as real * radius <= dis
    ensures n < USIZE_MAX && dis / radius < (n + 1) as real ==> dis < (n + 1) as real * radius
  {
    assert dis == (dis / radius) * radius;
  }

  /** The i-th point of a dotted line: `start + norm * i * radius`. */
  function DotPoint(start: Vec2, norm: Vec2, radius: real, i: nat): Vec2
  {
    Add(start, Scale(norm, i as real * radius))
  }

  /** The first `n` points of a dotted line, in order. */
  function DotLinePoints(start: Vec2, norm: Vec2, radius: real, n: nat): (pts: seq<Vec2>)
    ensures |pts| == n
    ensures forall i | 0 <= i < n :: pts[i] == DotPoint(start, norm, radius, i)
  {
    seq(n, i requires 0 <= i < n => DotPoint(start, norm, radius, i))
  }

  lemma DotLinePointsSnoc(start: Vec2, norm: Vec2, radius: real, n: nat)
    ensures DotLinePoints(start, norm, radius, n + 1)
         == DotLinePoints(start, norm, radius, n) + [DotPoint(start, norm, radius, n)]
  {
    assert DotLinePoints(start, norm, radius, n + 1)
        == DotLinePoints(start, norm, radius, n) + [DotPoint(start, norm, radius, n)];
  }

  /** Consecutive dots are exactly one radius step apart along `norm`. */
  lemma DotSpacing(start: Vec2, norm: Vec2, radius: real, i: nat)
    ensures Sub(DotPoint(start, norm, radius, i + 1), DotPoint(start, norm, radius, i))
         == Scale(norm, radius)
  {
    var a := DotPoint(start, norm, radius, i);
    var b := DotPoint(start, norm, radius, i + 1);
    assert b.x - a.x == norm.x * radius by {
      assert (i + 1) as real * radius == i as real * radius + radius;
    }
    assert b.y - a.y == norm.y * radius by {
      assert (i + 1) as real * radius == i as real * radius + radius;
    }
  }

  /** With `norm` the direction `(end - start) / dis` of a segment of length `dis > 0`,
      every point of the dotted line lies on the segment, at the fraction `t` of the
      way from `start` to `end`, with `0 <= t < 1`: the dots never reach or pass `end`. */
  lemma DotLineOnSegment(start: Vec2, end: Vec2, dis: real, radius: real, i: nat)
    requires dis > 0.0 && radius > 0.0
    requires i < NumPoints(dis, radius)
    ensures var t := i as real * radius / dis;
      && 0.0 <= t < 1.0
      && DotPoint(start, Scale(Sub(end, start), 1.0 / dis), radius, i)
         == Add(start, Scale(Sub(end, start), t))
  {
    var n := NumPoints(dis, radius);
    var s := i as real * radius;
    assert 0.0 <= s;
    assert s < dis by {
      var gap := n as real - (i as real + 1.0);
      assert gap >= 0.0;
      assert gap * radius >= 0.0;
      assert n as real * radius == (i as real + 1.0) * radius + gap * radius;
      assert (i as real + 1.0) * radius == s + radius;
      assert n as real * radius <= dis;
    }
    var t := s / dis;
    assert t < 1.0 by {
      assert t * dis == s;
    }
    var d := Sub(end, start);
    assert d.x * (1.0 / dis) * s == d.x * t;
    assert d.y * (1.0 / dis) * s == d.y * t;
  }

  /** A 3-d point, the result of multiplying a `mat3` with `vec3(p, 1.0)`. */
  datatype Vec3 = Vec3(x: real, y: real, z: real)

  /** The camera matrix of the point-drawing systems, column-major:
      `[2/w, 0, 0,  0, -2/h, 0,  -1, 1, 1]`. */
  function CameraMatrix(dim: Vec2): (m: seq<real>)
    requires dim.x != 0.0 && dim.y != 0.0
    ensures |m| == 9
  {
    var scalex := 2.0 / dim.x;
    var scaley := 2.0 / dim.y;
    [scalex, 0.0, 0.0, 0.0, -scaley, 0.0, -1.0, 1.0, 1.0]
  }

  /** The vertex shader's `mmatrix * vec3(p, 1.0)` for a column-major `mat3`. */
  function Transform(m: seq<real>, p: Vec2): Vec3
    requires |m| == 9
  {
    Vec3(m[0] * p.x + m[3] * p.y + m[6],
         m[1] * p.x + m[4] * p.y + m[7],
         m[2] * p.x + m[5] * p.y + m[8])
  }

  /** The camera maps game coordinates to clip space: x scaled to `2x/w - 1`, y flipped
      to `1 - 2y/h`, the homogeneous coordinate left at 1. */
  lemma CameraMaps(dim: Vec2, p: Vec2)
    requires dim.x != 0.0 && dim.y != 0.0
    ensures Transform(CameraMatrix(dim), p)
         == Vec3(2.0 * p.x / dim.x - 1.0, 1.0 - 2.0 * p.y / dim.y, 1.0)
  {
    var m := CameraMatrix(dim);
    assert m[0] * p.x == 2.0 * p.x / dim.x;
    assert m[4] * p.y == -(2.0 * p.y / dim.y);
  }

  /** Corner mapping: the game's top-left `(0, 0)` lands on clip `(-1, 1)`, its
      bottom-right `dim` on clip `(1, -1)`, and the centre on the origin. */
  lemma CameraCorners(dim: Vec2)
    requires dim.x != 0.0 && dim.y != 0.0
    ensures Transform(CameraMatrix(dim), Vec2(0.0, 0.0)) == Vec3(-1.0, 1.0, 1.0)
    ensures Transform(CameraMatrix(dim), dim) == Vec3(1.0, -1.0, 1.0)
    ensures Transform(CameraMatrix(dim), Scale(dim, 0.5)) == Vec3(0.0, 0.0, 1.0)
  {
    CameraMaps(dim, Vec2(0.0, 0.0));
    CameraMaps(dim, dim);
    CameraMaps(dim, Scale(dim, 0.5));
  }

  /** The inverse of the camera: clip coordinates back to game coordinates. */
  function Unproject(dim: Vec2, c: Vec3): Vec2
  {
    Vec2((c.x + 1.0) * dim.x / 2.0, (1.0 - c.y) * dim.y / 2.0)
  }

  /** The camera is invertible: unprojecting a transformed point gives the point back. */
  lemma CameraRoundTrip(dim: Vec2, p: Vec2)
    requires dim.x != 0.0 && dim.y != 0.0
    ensures Unproject(dim, Transform(CameraMatrix(dim), p)) == p
  {
    CameraMaps(dim, p);
    var c := Transform(CameraMatrix(dim), p);
    assert (c.x + 1.0) * dim.x / 2.0 == p.x by {
      assert c.x + 1.0 == 2.0 * p.x / dim.x;
    }
    assert (1.0 - c.y) * dim.y / 2.0 == p.y by {
      assert 1.0 - c.y == 2.0 * p.y / dim.y;
    }
  }
}
