/** `to_screen` and the projection in `Shape.draw` of main.py: every edge
    endpoint is rotated (a matrix-vector product), its first two coordinates
    are kept, and that point is scaled and truncated onto the canvas.  The
    segments are collected in the order `draw` hands them to the canvas;
    the canvas itself is not modelled. */
module Projection {
  import opened Matrices
  import opened Rotation
  import opened Cube

  const ViewHeight: int := 600
  const ViewWidth: int := 800
  const ViewCentreX: int := ViewWidth / 2
  const ViewCentreY: int := ViewHeight / 2
  const UnitLength: int := 70

  function Abs(x: real): real {
    if x < 0.0 then -x else x
  }

  /** Python's `int` on a float: drops the fractional part, toward zero. */
  function Truncate(x: real): (r: int)
    ensures 0.0 <= x ==> r as real <= x < r as real + 1.0
    ensures x < 0.0 ==> r as real - 1.0 < x <= r as real
  {
    if 0.0 <= x then x.Floor else -((-x).Floor)
  }

  /** Truncation toward zero commutes with negation (flooring would not). */
  lemma TruncateOdd(x: real)
    ensures Truncate(-x) == -Truncate(x)
  {
    if x < 0.0 {
      assert Truncate(-x) == (-x).Floor;
    } else if x > 0.0 {
      assert Truncate(-x) == -(x.Floor);
    }
  }

  datatype Point = Point(x: real, y: real)
  datatype Pixel = Pixel(x: int, y: int)

  /** `to_screen(pair)`: the point scaled by `UnitLength` about the centre of
      the view, each coordinate moved toward the centre by less than one
      pixel onto a whole pixel. */
  function ToScreen(p: Point): (r: Pixel)
    ensures 0.0 <= p.x ==> ViewCentreX <= r.x
    ensures p.x <= 0.0 ==> r.x <= ViewCentreX
    ensures 0.0 <= p.y ==> ViewCentreY <= r.y
    ensures p.y <= 0.0 ==> r.y <= ViewCentreY
    ensures Abs((r.x - ViewCentreX) as real) <= Abs(p.x * UnitLength as real) < Abs((r.x - ViewCentreX) as real) + 1.0
    ensures Abs((r.y - ViewCentreY) as real) <= Abs(p.y * UnitLength as real) < Abs((r.y - ViewCentreY) as real) + 1.0
  {
    Pixel(ViewCentreX + Truncate(p.x * UnitLength as real), ViewCentreY + Truncate(p.y * UnitLength as real))
  }

  /** Opposite points land on pixels mirrored through the centre. */
  lemma ToScreenMirror(p: Point)
    ensures ToScreen(Point(-p.x, -p.y)).x - ViewCentreX == ViewCentreX - ToScreen(p).x
    ensures ToScreen(Point(-p.x, -p.y)).y - ViewCentreY == ViewCentreY - ToScreen(p).y
  {
    TruncateOdd(p.x * UnitLength as real);
    TruncateOdd(p.y * UnitLength as real);
    assert -p.x * UnitLength as real == -(p.x * UnitLength as real);
    assert -p.y * UnitLength as real == -(p.y * UnitLength as real);
  }

  /** The termwise products of row `i` of `m` and the vector `v`. */
  function RowProducts(m: Matrix, v: seq<real>, n: nat, i: nat): (r: seq<real>)
    requires IsSquare(m, n) && |v| == n && i < n
    ensures |r| == n && forall q :: 0 <= q < n ==> r[q] == m[i][q] * v[q]
  {
    seq(n, q requires 0 <= q < n => m[i][q] * v[q])
  }

  function RowDot(m: Matrix, v: seq<real>, n: nat, i: nat): real
    requires IsSquare(m, n) && |v| == n && i < n
  {
    Sum(RowProducts(m, v, n, i))
  }

  /** `np.matmul(mat, v)` for a vector `v`: entry `i` is row `i` of the
      matrix against `v`. */
  function Apply(m: Matrix, v: seq<real>, n: nat): (r: seq<real>)
    requires IsSquare(m, n) && |v| == n
    ensures |r| == n
    ensures forall i :: 0 <= i < n ==> r[i] == Sum(RowProducts(m, v, n, i))
  {
    seq(n, i requires 0 <= i < n => RowDot(m, v, n, i))
  }

  lemma ApplyIdentity(v: seq<real>, n: nat)
    requires |v| == n
    ensures Apply(Identity(n), v, n) == v
  {
    var r := Apply(Identity(n), v, n);
    forall i | 0 <= i < n
      ensures r[i] == v[i]
    {
      SumSingle(RowProducts(Identity(n), v, n, i), i);
    }
  }

  /** `[:2]` of the rotated vector, unpacked as `x, y`. */
  function Project(m: Matrix, v: seq<real>, n: nat): (r: Point)
    requires IsSquare(m, n) && |v| == n && 2 <= n
    ensures r.x == Sum(RowProducts(m, v, n, 0)) && r.y == Sum(RowProducts(m, v, n, 1))
  {
    var w := Apply(m, v, n);
    Point(w[0], w[1])
  }

  /** The identity projects a vector onto its first two coordinates. */
  lemma ProjectIdentity(v: seq<real>, n: nat)
    requires |v| == n && 2 <= n
    ensures Project(Identity(n), v, n) == Point(v[0], v[1])
  {
    ApplyIdentity(v, n);
  }

  /** The projection reads only the first two rows of the matrix: the
      rows that `[:2]` keeps. */
  lemma ProjectReadsTwoRows(m1: Matrix, m2: Matrix, v: seq<real>, n: nat)
    requires IsSquare(m1, n) && IsSquare(m2, n) && |v| == n && 2 <= n
    requires m1[0] == m2[0] && m1[1] == m2[1]
    ensures Project(m1, v, n) == Project(m2, v, n)
  {
    assert RowProducts(m1, v, n, 0) == RowProducts(m2, v, n, 0);
    assert RowProducts(m1, v, n, 1) == RowProducts(m2, v, n, 1);
  }

  datatype Segment = Segment(from: Pixel, to: Pixel)

  /** `v` can go through `np.matmul(mat, v)[:2]` and be unpacked into two
      coordinates: it has the matrix's size, which is at least two. */
  predicate Fits(v: seq<real>, n: nat) {
    |v| == n && 2 <= n
  }

  predicate EdgeFits(e: Edge, n: nat) {
    Fits(e.lo, n) && Fits(e.hi, n)
  }

  /** The line `draw` puts on the canvas for the edge `e`. */
  function EdgeSegment(m: Matrix, n: nat, e: Edge): (r: Segment)
    requires IsSquare(m, n) && EdgeFits(e, n)
    ensures r.from.x == ViewCentreX + Truncate(Sum(RowProducts(m, e.lo, n, 0)) * UnitLength as real)
    ensures r.from.y == ViewCentreY + Truncate(Sum(RowProducts(m, e.lo, n, 1)) * UnitLength as real)
    ensures r.to.x == ViewCentreX + Truncate(Sum(RowProducts(m, e.hi, n, 0)) * UnitLength as real)
    ensures r.to.y == ViewCentreY + Truncate(Sum(RowProducts(m, e.hi, n, 1)) * UnitLength as real)
  {
    Segment(ToScreen(Project(m, e.lo, n)), ToScreen(Project(m, e.hi, n)))
  }

  /** The lines for the first `k` edges, in order. */
  function Picture(m: Matrix, n: nat, edges: seq<Edge>, k: nat): (r: seq<Segment>)
    requires IsSquare(m, n) && k <= |edges|
    requires forall t :: 0 <= t < k ==> EdgeFits(edges[t], n)
    ensures |r| == k
  {
    if k == 0 then [] else Picture(m, n, edges, k - 1) + [EdgeSegment(m, n, edges[k - 1])]
  }

  /** Line `t` of the picture is the line of edge `t`. */
  lemma {:induction false} PictureAt(m: Matrix, n: nat, edges: seq<Edge>, k: nat, t: nat)
    requires IsSquare(m, n) && t < k <= |edges|
    requires forall t :: 0 <= t < k ==> EdgeFits(edges[t], n)
    ensures Picture(m, n, edges, k)[t] == EdgeSegment(m, n, edges[t])
  {
    if t < k - 1 {
      PictureAt(m, n, edges, k - 1, t);
    }
  }

  /** How many leading edges fit: the loop of `draw` raises at the first
      edge that does not. */
  function FitCount(n: nat, edges: seq<Edge>): (r: nat)
    ensures r <= |edges|
    ensures forall t :: 0 <= t < r ==> EdgeFits(edges[t], n)
    ensures r < |edges| ==> !EdgeFits(edges[r], n)
  {
    if edges == [] || !EdgeFits(edges[0], n) then 0 else 1 + FitCount(n, edges[1..])
  }

  datatype Shape = Shape(dimension: nat, edges: seq<Edge>)

  /** What a call of `draw` comes to: the lines drawn, or the exception
      that stops it.  `matrix` raises `StopIteration` before anything is
      drawn when there are too few parameters; numpy raises `ValueError` on
      an endpoint of the wrong size, and unpacking `x, y` does on a vector
      with fewer than two coordinates. */
  datatype Drawing = Drawn(lines: seq<Segment>) | NotEnoughAngles | BadVertex

  /** `Shape.draw(surface, parameters)`: build the rotation, then draw
      the edges. */
  method Draw(shape: Shape, angles: seq<Angle>) returns (r: Drawing)
    ensures r.NotEnoughAngles? <==> |angles| < DegreesOfFreedom(shape.dimension)
    ensures r.BadVertex? <==> DegreesOfFreedom(shape.dimension) <= |angles|
                              && FitCount(shape.dimension, shape.edges) < |shape.edges|
    ensures r.Drawn? ==> r.lines == Picture(RotationMatrix(shape.dimension, angles), shape.dimension,
                                            shape.edges, |shape.edges|)
  {
    var built := BuildRotation(shape.dimension, angles);
    if built.Exhausted? {
      return NotEnoughAngles;
    }
    r := DrawEdges(built.value, shape.dimension, shape.edges);
  }

  /** The loop `for v1, v2 in self.edges` of `draw`, stopping at the first
      edge that does not fit. */
  method DrawEdges(m: Matrix, n: nat, edges: seq<Edge>) returns (r: Drawing)
    requires IsSquare(m, n)
    ensures r.Drawn? || r.BadVertex?
    ensures r.BadVertex? <==> FitCount(n, edges) < |edges|
    ensures r.Drawn? ==> r.lines == Picture(m, n, edges, |edges|)
  {
    var lines := [];
    var i := 0;
    while i < |edges|
      invariant i <= |edges|
      invariant i <= FitCount(n, edges)
      invariant lines == Picture(m, n, edges, i)
    {
      var e := edges[i];
      if !EdgeFits(e, n) {
        return BadVertex;
      }
      lines := lines + [EdgeSegment(m, n, e)];
      i := i + 1;
    }
    return Drawn(lines);
  }

  /** The endpoints of every cube edge fit the cube's own dimension. */
  lemma CubeEdgesFit(d: nat)
    requires 2 <= d
    ensures forall t :: 0 <= t < |CubeEdgeList(d)| ==> EdgeFits(CubeEdgeList(d)[t], d)
    ensures FitCount(d, CubeEdgeList(d)) == |CubeEdgeList(d)|
  {
    CubeEdgesSound(d);
    forall t | 0 <= t < |CubeEdgeList(d)|
      ensures EdgeFits(CubeEdgeList(d)[t], d)
    {
      var e := CubeEdgeList(d)[t];
      var a :| 0 <= a < d && IsEdgeAlong(e, d, a);
    }
  }

  /** With every slider at zero the picture is the shadow of the shape on
      the plane of its first two coordinates. */
  lemma EdgeSegmentAtRest(d: nat, angles: seq<Angle>, e: Edge)
    requires DegreesOfFreedom(d) <= |angles| && EdgeFits(e, d)
    requires forall k :: 0 <= k < DegreesOfFreedom(d) ==> angles[k] == Zero
    ensures EdgeSegment(RotationMatrix(d, angles), d, e)
         == Segment(ToScreen(Point(e.lo[0], e.lo[1])), ToScreen(Point(e.hi[0], e.hi[1])))
  {
    RotationOfZeros(d, angles);
    ProjectIdentity(e.lo, d);
    ProjectIdentity(e.hi, d);
  }

  /** One of the four corners of the square the cube covers at rest:
      half a unit, 35 pixels, either side of the centre. */
  predicate AtRestCorner(p: Pixel) {
    (p.x == ViewCentreX - 35 || p.x == ViewCentreX + 35)
    && (p.y == ViewCentreY - 35 || p.y == ViewCentreY + 35)
  }

  lemma HalfToScreen(x: real, y: real)
    requires IsHalf(x) && IsHalf(y)
    ensures AtRestCorner(ToScreen(Point(x, y)))
  {
    assert Truncate(35.0) == 35;
    assert Truncate(-35.0) == -35;
  }

  /** At rest every line of the cube joins two corners of a 70-pixel square
      about the centre of the view. */
  lemma CubeAtRest(d: nat, angles: seq<Angle>, t: nat)
    requires 2 <= d && DegreesOfFreedom(d) <= |angles|
    requires forall k :: 0 <= k < DegreesOfFreedom(d) ==> angles[k] == Zero
    requires t < |CubeEdgeList(d)|
    ensures EdgeFits(CubeEdgeList(d)[t], d)
    ensures AtRestCorner(EdgeSegment(RotationMatrix(d, angles), d, CubeEdgeList(d)[t]).from)
    ensures AtRestCorner(EdgeSegment(RotationMatrix(d, angles), d, CubeEdgeList(d)[t]).to)
  {
    CubeEdgesFit(d);
    CubeEdgesSound(d);
    var e := CubeEdgeList(d)[t];
    var a :| 0 <= a < d && IsEdgeAlong(e, d, a);
    EdgeSegmentAtRest(d, angles, e);
    HalfToScreen(e.lo[0], e.lo[1]);
    HalfToScreen(e.hi[0], e.hi[1]);
  }
}
