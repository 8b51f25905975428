/** `cube_edges` of main.py: the edges of the unit hypercube centred on the
    origin, listed direction by direction.  A vertex is a sequence of
    coordinates, each -0.5 or 0.5; an edge is the pair of its endpoints, the
    one at -0.5 along the edge's direction first. */
module Cube {

  datatype Edge = Edge(lo: seq<real>, hi: seq<real>)

  function Pow2(k: nat): (r: nat)
    ensures r >= 1
  {
    if k == 0 then 1 else 2 * Pow2(k - 1)
  }

  /** A coordinate of a cube vertex. */
  predicate IsHalf(x: real) {
    x == -0.5 || x == 0.5
  }

  /** `v` is a vertex of the `d`-cube. */
  predicate IsCubeVertex(v: seq<real>, d: nat) {
    |v| == d && forall i :: 0 <= i < d ==> IsHalf(v[i])
  }

  /** Puts `x` in front of every tuple of `ts`. */
  function Prepend(x: real, ts: seq<seq<real>>): (r: seq<seq<real>>)
    ensures |r| == |ts| && forall i :: 0 <= i < |ts| ==> r[i] == [x] + ts[i]
  {
    seq(|ts|, i requires 0 <= i < |ts| => [x] + ts[i])
  }

  /** `product([-0.5, 0.5], repeat=k)` in the order itertools yields it:
      lexicographic, the first coordinate varying slowest. */
  function SignTuples(k: nat): (r: seq<seq<real>>)
    ensures |r| == Pow2(k)
    ensures forall i :: 0 <= i < |r| ==> |r[i]| == k
  {
    if k == 0 then [[]] else Prepend(-0.5, SignTuples(k - 1)) + Prepend(0.5, SignTuples(k - 1))
  }

  /** Every tuple of the product is a vertex of the `k`-cube. */
  lemma {:induction false} SignTuplesAreVertices(k: nat)
    ensures forall i :: 0 <= i < Pow2(k) ==> IsCubeVertex(SignTuples(k)[i], k)
  {
    if k > 0 {
      SignTuplesAreVertices(k - 1);
      var h := Pow2(k - 1);
      var prev, all := SignTuples(k - 1), SignTuples(k);
      forall i | 0 <= i < Pow2(k)
        ensures IsCubeVertex(all[i], k)
      {
        if i < h {
          assert all[i] == [-0.5] + prev[i];
        } else {
          assert all[i] == [0.5] + prev[i - h];
        }
      }
    }
  }

  /** Every vertex of the `k`-cube occurs in the product. */
  lemma {:induction false} SignTuplesComplete(v: seq<real>, k: nat) returns (j: nat)
    requires IsCubeVertex(v, k)
    ensures j < |SignTuples(k)| && SignTuples(k)[j] == v
  {
    if k == 0 {
      assert v == [];
      j := 0;
    } else {
      var rest := v[1..];
      var prev := SignTuples(k - 1);
      var p := SignTuplesComplete(rest, k - 1);
      assert v == [v[0]] + rest;
      if v[0] == -0.5 {
        j := p;
        assert SignTuples(k)[j] == Prepend(-0.5, prev)[p];
      } else {
        j := Pow2(k - 1) + p;
        assert SignTuples(k)[j] == Prepend(0.5, prev)[p];
      }
    }
  }

  /** The product lists no tuple twice. */
  lemma {:induction false} SignTuplesDistinct(k: nat)
    ensures forall i, j :: 0 <= i < j < Pow2(k) ==> SignTuples(k)[i] != SignTuples(k)[j]
  {
    if k > 0 {
      SignTuplesDistinct(k - 1);
      var h := Pow2(k - 1);
      var prev, all := SignTuples(k - 1), SignTuples(k);
      forall i, j | 0 <= i < j < Pow2(k)
        ensures all[i] != all[j]
      {
        if i < h && j < h {
          assert all[i][1..] == prev[i] && all[j][1..] == prev[j];
        } else if h <= i && h <= j {
          assert all[i][1..] == prev[i - h] && all[j][1..] == prev[j - h];
        } else {
          assert all[i][0] == -0.5 && all[j][0] == 0.5;
        }
      }
    }
  }

  /** `pre[0:i] + (x,) + pre[i:]`: `pre` with `x` inserted at position `i`. */
  function Insert(pre: seq<real>, i: nat, x: real): (r: seq<real>)
    requires i <= |pre|
    ensures |r| == |pre| + 1 && r[i] == x
    ensures forall t :: 0 <= t < i ==> r[t] == pre[t]
    ensures forall t :: i < t < |r| ==> r[t] == pre[t - 1]
  {
    pre[..i] + [x] + pre[i..]
  }

  /** Inserting the same coordinate into two different tuples keeps them
      different. */
  lemma InsertKeepsDistinct(p: seq<real>, q: seq<real>, i: nat, x: real)
    requires i <= |p| && |p| == |q| && p != q
    ensures Insert(p, i, x) != Insert(q, i, x)
  {
    var t :| 0 <= t < |p| && p[t] != q[t];
    if t < i {
      assert Insert(p, i, x)[t] == p[t] && Insert(q, i, x)[t] == q[t];
    } else {
      assert Insert(p, i, x)[t + 1] == p[t] && Insert(q, i, x)[t + 1] == q[t];
    }
  }

  /** The edge through `pre` along `direction`. */
  function MakeEdge(pre: seq<real>, direction: nat): Edge
    requires direction <= |pre|
  {
    Edge(Insert(pre, direction, -0.5), Insert(pre, direction, 0.5))
  }

  /** `e` is an edge of the `d`-cube along `direction`: both ends are
      vertices, the first at -0.5 and the second at 0.5 in that coordinate,
      and the two agree in every other coordinate. */
  predicate IsEdgeAlong(e: Edge, d: nat, direction: nat) {
    direction < d && IsCubeVertex(e.lo, d) && IsCubeVertex(e.hi, d)
    && e.lo[direction] == -0.5 && e.hi[direction] == 0.5
    && forall i :: 0 <= i < d && i != direction ==> e.lo[i] == e.hi[i]
  }

  predicate IsCubeEdge(e: Edge, d: nat) {
    exists direction :: 0 <= direction < d && IsEdgeAlong(e, d, direction)
  }

  /** Edges along different directions are different edges. */
  lemma DirectionsDiffer(e: Edge, f: Edge, d: nat, a: nat, b: nat)
    requires IsEdgeAlong(e, d, a) && IsEdgeAlong(f, d, b) && a != b
    ensures e != f
  {
    assert e.lo[a] != e.hi[a];
    assert f.lo[a] == f.hi[a];
  }

  lemma MakeEdgeIsAlong(pre: seq<real>, d: nat, direction: nat)
    requires direction < d && IsCubeVertex(pre, d - 1)
    ensures IsEdgeAlong(MakeEdge(pre, direction), d, direction)
  {
    var e := MakeEdge(pre, direction);
    forall i | 0 <= i < d
      ensures IsHalf(e.lo[i]) && IsHalf(e.hi[i])
      ensures i != direction ==> e.lo[i] == e.hi[i]
    {
      if i < direction {
        assert e.lo[i] == pre[i] == e.hi[i];
      } else if i > direction {
        assert e.lo[i] == pre[i - 1] == e.hi[i];
      }
    }
  }

  /** The inner loop of `cube_edges` for one `direction`: one edge per
      tuple of the product, in the product's order. */
  function EdgesAlong(d: nat, direction: nat): (r: seq<Edge>)
    requires direction < d
    ensures |r| == Pow2(d - 1)
    ensures forall j :: 0 <= j < |r| ==> r[j] == MakeEdge(SignTuples(d - 1)[j], direction)
  {
    var pres := SignTuples(d - 1);
    seq(|pres|, j requires 0 <= j < |pres| => MakeEdge(pres[j], direction))
  }

  /** The edges along the directions 0 .. upto - 1, in loop order. */
  function EdgesUpTo(d: nat, upto: nat): seq<Edge>
    requires upto <= d
  {
    if upto == 0 then [] else EdgesUpTo(d, upto - 1) + EdgesAlong(d, upto - 1)
  }

  /** What `cube_edges(d)` returns. */
  function CubeEdgeList(d: nat): seq<Edge> {
    EdgesUpTo(d, d)
  }

  /** `cube_edges(dimension)`: for each direction, and for each tuple of the
      product of the other coordinates, append the edge through that tuple
      along that direction. */
  method CubeEdges(d: nat) returns (edges: seq<Edge>)
    ensures edges == CubeEdgeList(d)
  {
    edges := [];
    var direction := 0;
    while direction < d
      invariant direction <= d
      invariant edges == EdgesUpTo(d, direction)
    {
      var pres := SignTuples(d - 1);
      var j := 0;
      while j < |pres|
        invariant j <= |pres|
        invariant edges == EdgesUpTo(d, direction) + EdgesAlong(d, direction)[..j]
      {
        var pre := pres[j];
        edges := edges + [Edge(pre[..direction] + [-0.5] + pre[direction..],
                               pre[..direction] + [0.5] + pre[direction..])];
        assert EdgesAlong(d, direction)[..j + 1] == EdgesAlong(d, direction)[..j] + [MakeEdge(pre, direction)];
        j := j + 1;
      }
      assert EdgesAlong(d, direction)[..j] == EdgesAlong(d, direction);
      direction := direction + 1;
    }
  }

  lemma {:induction false} EdgesUpToLength(d: nat, upto: nat)
    requires 1 <= d && upto <= d
    ensures |EdgesUpTo(d, upto)| == upto * Pow2(d - 1)
  {
    if upto > 0 {
      EdgesUpToLength(d, upto - 1);
    }
  }

  /** A `d`-cube has `d · 2^(d-1)` edges. */
  lemma CubeEdgeCount(d: nat)
    ensures |CubeEdgeList(d)| == if d == 0 then 0 else d * Pow2(d - 1)
  {
    if d > 0 {
      EdgesUpToLength(d, d);
    }
  }

  /** The edges come grouped by direction, each group in the product's
      order: the edge through the `j`-th tuple along `direction` is at
      position `direction · 2^(d-1) + j`. */
  lemma {:induction false} EdgesUpToAt(d: nat, upto: nat, direction: nat, j: nat)
    requires direction < upto <= d && j < Pow2(d - 1)
    ensures direction * Pow2(d - 1) + j < |EdgesUpTo(d, upto)|
    ensures EdgesUpTo(d, upto)[direction * Pow2(d - 1) + j] == MakeEdge(SignTuples(d - 1)[j], direction)
  {
    EdgesUpToLength(d, upto - 1);
    EdgesUpToLength(d, upto);
    if direction < upto - 1 {
      EdgesUpToAt(d, upto - 1, direction, j);
    }
  }

  lemma CubeEdgeOrder(d: nat, direction: nat, j: nat)
    requires direction < d && j < Pow2(d - 1)
    ensures direction * Pow2(d - 1) + j < |CubeEdgeList(d)|
    ensures CubeEdgeList(d)[direction * Pow2(d - 1) + j] == MakeEdge(SignTuples(d - 1)[j], direction)
  {
    EdgesUpToAt(d, d, direction, j);
  }

  /** `e` is an edge of the `d`-cube along one of the first `upto`
      directions. */
  predicate AlongOneOf(e: Edge, d: nat, upto: nat) {
    exists direction :: 0 <= direction < upto && IsEdgeAlong(e, d, direction)
  }

  /** Every edge listed for the first `upto` directions is an edge of the
      cube along one of them. */
  lemma {:induction false} EdgesUpToSound(d: nat, upto: nat)
    requires upto <= d
    ensures forall i :: 0 <= i < |EdgesUpTo(d, upto)| ==> AlongOneOf(EdgesUpTo(d, upto)[i], d, upto)
  {
    if upto > 0 {
      EdgesUpToSound(d, upto - 1);
      SignTuplesAreVertices(d - 1);
      var all, prefix, along := EdgesUpTo(d, upto), EdgesUpTo(d, upto - 1), EdgesAlong(d, upto - 1);
      forall i | 0 <= i < |all|
        ensures AlongOneOf(all[i], d, upto)
      {
        if i < |prefix| {
          assert all[i] == prefix[i];
          var a :| 0 <= a < upto - 1 && IsEdgeAlong(prefix[i], d, a);
          assert IsEdgeAlong(all[i], d, a);
        } else {
          var j := i - |prefix|;
          assert all[i] == along[j];
          MakeEdgeIsAlong(SignTuples(d - 1)[j], d, upto - 1);
          assert IsEdgeAlong(all[i], d, upto - 1);
        }
      }
    }
  }

  /** `cube_edges` lists only edges of the cube. */
  lemma CubeEdgesSound(d: nat)
    ensures forall i :: 0 <= i < |CubeEdgeList(d)| ==> IsCubeEdge(CubeEdgeList(d)[i], d)
  {
    EdgesUpToSound(d, d);
  }

  /** `v` without its coordinate `i`: the inverse of `Insert`. */
  function Remove(v: seq<real>, i: nat): (r: seq<real>)
    requires i < |v|
    ensures |r| == |v| - 1
    ensures forall t :: 0 <= t < i ==> r[t] == v[t]
    ensures forall t :: i <= t < |r| ==> r[t] == v[t + 1]
  {
    v[..i] + v[i + 1..]
  }

  /** Every edge of the cube is the edge through the vertex of the other
      coordinates, along its direction. */
  lemma EdgeThroughRemoved(e: Edge, d: nat, direction: nat)
    requires IsEdgeAlong(e, d, direction)
    ensures IsCubeVertex(Remove(e.lo, direction), d - 1)
    ensures MakeEdge(Remove(e.lo, direction), direction) == e
  {
    var pre := Remove(e.lo, direction);
    forall t | 0 <= t < d - 1
      ensures IsHalf(pre[t])
    {
      if t >= direction {
        assert pre[t] == e.lo[t + 1];
      }
    }
    var made := MakeEdge(pre, direction);
    forall t | 0 <= t < d
      ensures made.lo[t] == e.lo[t] && made.hi[t] == e.hi[t]
    {
      if t > direction {
        assert made.lo[t] == pre[t - 1] == e.lo[t];
      }
    }
    assert made.lo == e.lo && made.hi == e.hi;
  }

  /** The edge through tuple `j` along `direction` is in the list. */
  lemma EdgeListed(d: nat, direction: nat, j: nat)
    requires direction < d && j < |SignTuples(d - 1)|
    ensures MakeEdge(SignTuples(d - 1)[j], direction) in CubeEdgeList(d)
  {
    CubeEdgeOrder(d, direction, j);
  }

  /** `cube_edges` lists every edge of the cube. */
  lemma CubeEdgesComplete(d: nat, e: Edge)
    requires IsCubeEdge(e, d)
    ensures e in CubeEdgeList(d)
  {
    var direction :| 0 <= direction < d && IsEdgeAlong(e, d, direction);
    var pre := Remove(e.lo, direction);
    EdgeThroughRemoved(e, d, direction);
    var j := SignTuplesComplete(pre, d - 1);
    EdgeListed(d, direction, j);
  }

  /** The edges along one direction are pairwise different. */
  lemma EdgesAlongDistinct(d: nat, direction: nat)
    requires direction < d
    ensures forall i, j :: 0 <= i < j < Pow2(d - 1) ==> EdgesAlong(d, direction)[i] != EdgesAlong(d, direction)[j]
  {
    SignTuplesDistinct(d - 1);
    var pres := SignTuples(d - 1);
    forall i, j | 0 <= i < j < Pow2(d - 1)
      ensures EdgesAlong(d, direction)[i] != EdgesAlong(d, direction)[j]
    {
      InsertKeepsDistinct(pres[i], pres[j], direction, -0.5);
    }
  }

  /** An edge listed for an earlier direction is not listed for a later one. */
  lemma EarlierDirectionsDiffer(d: nat, upto: nat, i: nat, j: nat)
    requires 0 < upto <= d && i < |EdgesUpTo(d, upto - 1)| && j < Pow2(d - 1)
    requires AlongOneOf(EdgesUpTo(d, upto - 1)[i], d, upto - 1)
    ensures EdgesUpTo(d, upto - 1)[i] != EdgesAlong(d, upto - 1)[j]
  {
    var e := EdgesUpTo(d, upto - 1)[i];
    var a :| 0 <= a < upto - 1 && IsEdgeAlong(e, d, a);
    SignTuplesAreVertices(d - 1);
    MakeEdgeIsAlong(SignTuples(d - 1)[j], d, upto - 1);
    DirectionsDiffer(e, EdgesAlong(d, upto - 1)[j], d, a, upto - 1);
  }

  /** No edge is listed twice (within the first `upto` directions). */
  lemma {:induction false} EdgesUpToDistinct(d: nat, upto: nat)
    requires upto <= d
    ensures forall i, j :: 0 <= i < j < |EdgesUpTo(d, upto)| ==> EdgesUpTo(d, upto)[i] != EdgesUpTo(d, upto)[j]
  {
    if upto > 0 {
      EdgesUpToDistinct(d, upto - 1);
      EdgesUpToSound(d, upto - 1);
      EdgesAlongDistinct(d, upto - 1);
      var all, prefix, along := EdgesUpTo(d, upto), EdgesUpTo(d, upto - 1), EdgesAlong(d, upto - 1);
      forall i, j | 0 <= i < j < |all|
        ensures all[i] != all[j]
      {
        if j < |prefix| {
          assert all[i] == prefix[i] && all[j] == prefix[j];
        } else if i < |prefix| {
          assert all[i] == prefix[i] && all[j] == along[j - |prefix|];
          EarlierDirectionsDiffer(d, upto, i, j - |prefix|);
        } else {
          assert all[i] == along[i - |prefix|] && all[j] == along[j - |prefix|];
        }
      }
    }
  }

  lemma CubeEdgesDistinct(d: nat)
    ensures forall i, j :: 0 <= i < j < |CubeEdgeList(d)| ==> CubeEdgeList(d)[i] != CubeEdgeList(d)[j]
  {
    EdgesUpToDistinct(d, d);
  }
}
