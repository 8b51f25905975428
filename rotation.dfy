/** The rotation builder of main.py: `degrees_of_freedom`, the order in which
    `matrix` visits the coordinate planes, the Givens multiplier of one step,
    and the composition of the steps by premultiplication.

    The program turns each slider value `p` into the angle `p · 2π` and takes
    its cosine and sine in floating point.  Here every step is handed the pair
    (cos θ, sin θ) directly, as exact reals. */
module Rotation {
  import opened Matrices

  /** `degrees_of_freedom`: the number of angles a rotation of `d`-space is
      built from.  The floor division loses nothing: `d · (d - 1)` is even. */
  function DegreesOfFreedom(d: int): (r: int)
    ensures 2 * r == d * (d - 1)
  {
    ConsecutiveProductIsEven(d);
    (d * (d - 1)) / 2
  }

  lemma ConsecutiveProductIsEven(d: int)
    ensures (d * (d - 1)) % 2 == 0
  {
    var q := d / 2;
    if d % 2 == 0 {
      assert d == 2 * q;
      assert d * (d - 1) == 2 * (q * (d - 1));
    } else {
      assert d - 1 == 2 * q;
      assert d * (d - 1) == 2 * (d * q);
    }
  }

  /** One more dimension adds one angle per existing axis. */
  lemma DegreesOfFreedomStep(d: int)
    ensures DegreesOfFreedom(d + 1) == DegreesOfFreedom(d) + d
  {
    assert (d + 1) * d == d * (d - 1) + 2 * d;
  }

  lemma {:induction false} DegreesOfFreedomMonotone(a: nat, b: nat)
    requires a <= b
    ensures DegreesOfFreedom(a) <= DegreesOfFreedom(b)
  {
    if a < b {
      DegreesOfFreedomMonotone(a, b - 1);
      DegreesOfFreedomStep(b - 1);
    }
  }

  /** The inner loop `for dim in range(pas, 0, -1)`: pas, pas - 1, ..., 1. */
  function Descending(p: nat): (r: seq<nat>)
    ensures |r| == p
    ensures forall t :: 0 <= t < p ==> r[t] == p - t
  {
    seq(p, t requires 0 <= t < p => p - t)
  }

  /** The planes `matrix` visits in dimension `d`, in visiting order; the
      entry `dim` stands for the plane of axes `dim - 1` and `dim`.  The outer
      loop runs `pas` over 1 .. d - 1 and the inner one `dim` from `pas` down
      to 1.  Both axes of every plane are axes of `d`-space. */
  function Schedule(d: nat): (r: seq<nat>)
    ensures forall k :: 0 <= k < |r| ==> 1 <= r[k] < d
  {
    if d <= 1 then [] else Schedule(d - 1) + Descending(d - 1)
  }

  /** There is one plane per degree of freedom. */
  lemma {:induction false} ScheduleLength(d: nat)
    ensures |Schedule(d)| == DegreesOfFreedom(d)
  {
    if d > 1 {
      ScheduleLength(d - 1);
      DegreesOfFreedomStep(d - 1);
    }
  }

  /** Pass `p` visits `p` planes. */
  lemma ScheduleGrows(p: nat)
    requires 1 <= p
    ensures |Schedule(p + 1)| == |Schedule(p)| + p
  {
  }

  lemma {:induction false} ScheduleMonotone(a: nat, b: nat)
    requires a <= b
    ensures |Schedule(a)| <= |Schedule(b)|
  {
    if a < b {
      ScheduleMonotone(a, b - 1);
    }
  }

  /** The plane visited at pass `p`, inner step `t`, is `p - t`; it comes
      after every plane of the earlier passes and `t` planes of this one. */
  lemma {:induction false} ScheduleAt(d: nat, p: nat, t: nat)
    requires 1 <= p < d && t < p
    ensures |Schedule(p)| + t < |Schedule(d)|
    ensures Schedule(d)[|Schedule(p)| + t] == p - t
  {
    if p < d - 1 {
      ScheduleAt(d - 1, p, t);
    }
  }

  /** An angle, given by its cosine and its sine. */
  datatype Angle = Angle(cos: real, sin: real)

  /** The angle 0, where every slider starts. */
  const Zero := Angle(1.0, 0.0)

  /** cos² + sin² = 1, which every true angle satisfies. */
  predicate IsUnit(a: Angle) {
    a.cos * a.cos + a.sin * a.sin == 1.0
  }

  /** The multiplier of one step: the identity of size `n` except on the
      plane of axes `dim - 1` and `dim`. */
  function Givens(n: nat, dim: nat, a: Angle): (r: Matrix)
    requires 1 <= dim < n
    ensures IsSquare(r, n)
  {
    seq(n, i => seq(n, j => GivensEntry(dim, a, i, j)))
  }

  /** Entry `(i, j)` of the multiplier on plane `dim`. */
  function GivensEntry(dim: nat, a: Angle, i: int, j: int): real {
    if i == dim - 1 && j == dim - 1 then a.cos
    else if i == dim && j == dim - 1 then a.sin
    else if i == dim - 1 && j == dim then -a.sin
    else if i == dim && j == dim then a.cos
    else if i == j then 1.0 else 0.0
  }

  /** Builds the multiplier the way the program does: an identity matrix whose
      four entries on the plane are overwritten one by one. */
  method BuildMultiplier(n: nat, dim: nat, a: Angle) returns (e: Matrix)
    requires 1 <= dim < n
    ensures e == Givens(n, dim, a)
  {
    e := Identity(n);
    e := e[dim - 1 := e[dim - 1][dim - 1 := a.cos]];
    e := e[dim := e[dim][dim - 1 := a.sin]];
    e := e[dim - 1 := e[dim - 1][dim := -a.sin]];
    e := e[dim := e[dim][dim := a.cos]];
    var g := Givens(n, dim, a);
    forall i | 0 <= i < n
      ensures e[i] == g[i]
    {
      forall j | 0 <= j < n
        ensures e[i][j] == g[i][j]
      {
      }
    }
  }

  /** Entry `(r, k)` of `m` after rows `dim - 1` and `dim` are rotated by `a`. */
  function RowRotated(m: Matrix, n: nat, dim: nat, a: Angle, r: nat, k: nat): real
    requires 1 <= dim < n && IsSquare(m, n) && r < n && k < n
  {
    if r == dim - 1 then a.cos * m[dim - 1][k] - a.sin * m[dim][k]
    else if r == dim then a.sin * m[dim - 1][k] + a.cos * m[dim][k]
    else m[r][k]
  }

  /** Entry `(r, k)` of `Givens(n, dim, a) · m`: a multiplier touches only
      rows `dim - 1` and `dim` of what it premultiplies. */
  lemma GivensEntryAction(n: nat, dim: nat, a: Angle, m: Matrix, r: nat, k: nat)
    requires 1 <= dim < n && IsSquare(m, n) && r < n && k < n
    ensures Mul(Givens(n, dim, a), m, n)[r][k] == RowRotated(m, n, dim, a, r, k)
  {
    var g := Givens(n, dim, a);
    var terms := Products(g, m, n, r, k);
    assert Mul(g, m, n)[r][k] == Sum(terms);
    if r == dim - 1 || r == dim {
      SumPair(terms, dim - 1, dim);
    } else {
      SumSingle(terms, r);
    }
  }

  /** Rotating two coordinates of both vectors keeps their dot product:
      (x, y) and (u, v) rotated by `a` become (p, r) and (q, t). */
  lemma RotatedProducts(a: Angle, x: real, y: real, u: real, v: real, p: real, q: real, r: real, t: real)
    requires IsUnit(a)
    requires p == a.cos * x - a.sin * y && r == a.sin * x + a.cos * y
    requires q == a.cos * u - a.sin * v && t == a.sin * u + a.cos * v
    ensures p * q + r * t == x * u + y * v
  {
    var c, s := a.cos, a.sin;
    calc {
      p * q + r * t;
      (c * x - s * y) * (c * u - s * v) + (s * x + c * y) * (s * u + c * v);
      (c * c + s * s) * (x * u) + (c * c + s * s) * (y * v);
      x * u + y * v;
    }
  }

  /** Rows `dim - 1` and `dim` of columns `k` and `l`: the two products
      on the plane add up to the same amount after the rotation. */
  lemma PlaneProductsKept(n: nat, dim: nat, a: Angle, m: Matrix, k: nat, l: nat)
    requires 1 <= dim < n && IsSquare(m, n) && IsUnit(a) && k < n && l < n
    ensures RowRotated(m, n, dim, a, dim - 1, k) * RowRotated(m, n, dim, a, dim - 1, l)
          + RowRotated(m, n, dim, a, dim, k) * RowRotated(m, n, dim, a, dim, l)
         == m[dim - 1][k] * m[dim - 1][l] + m[dim][k] * m[dim][l]
  {
    RotatedProducts(a, m[dim - 1][k], m[dim][k], m[dim - 1][l], m[dim][l],
      RowRotated(m, n, dim, a, dim - 1, k), RowRotated(m, n, dim, a, dim - 1, l),
      RowRotated(m, n, dim, a, dim, k), RowRotated(m, n, dim, a, dim, l));
  }

  /** One entry of `mᵀ · m` is kept by premultiplying with a multiplier. */
  lemma GivensPreservesGramEntry(n: nat, dim: nat, a: Angle, m: Matrix, k: nat, l: nat)
    requires 1 <= dim < n && IsSquare(m, n) && IsUnit(a) && k < n && l < n
    ensures Sum(ColumnProducts(Mul(Givens(n, dim, a), m, n), n, k, l)) == Sum(ColumnProducts(m, n, k, l))
  {
    var g := Mul(Givens(n, dim, a), m, n);
    var after, before := ColumnProducts(g, n, k, l), ColumnProducts(m, n, k, l);
    forall q | 0 <= q < n && q != dim - 1 && q != dim
      ensures after[q] == before[q]
    {
      GivensEntryAction(n, dim, a, m, q, k);
      GivensEntryAction(n, dim, a, m, q, l);
      assert g[q][k] == m[q][k] && g[q][l] == m[q][l];
    }
    GivensEntryAction(n, dim, a, m, dim - 1, k);
    GivensEntryAction(n, dim, a, m, dim - 1, l);
    GivensEntryAction(n, dim, a, m, dim, k);
    GivensEntryAction(n, dim, a, m, dim, l);
    PlaneProductsKept(n, dim, a, m, k, l);
    SumExchangePair(after, before, dim - 1, dim);
  }

  /** Premultiplying by the multiplier of a true angle preserves `mᵀ · m`. */
  lemma GivensPreservesGram(n: nat, dim: nat, a: Angle, m: Matrix)
    requires 1 <= dim < n && IsSquare(m, n) && IsUnit(a)
    ensures Mul(Transpose(Mul(Givens(n, dim, a), m, n), n), Mul(Givens(n, dim, a), m, n), n)
         == Mul(Transpose(m, n), m, n)
  {
    var g := Mul(Givens(n, dim, a), m, n);
    var lhs := Mul(Transpose(g, n), g, n);
    var rhs := Mul(Transpose(m, n), m, n);
    forall k | 0 <= k < n
      ensures lhs[k] == rhs[k]
    {
      forall l | 0 <= l < n
        ensures lhs[k][l] == rhs[k][l]
      {
        GramEntry(g, n, k, l);
        GramEntry(m, n, k, l);
        GivensPreservesGramEntry(n, dim, a, m, k, l);
      }
    }
  }

  /** Each multiplier of a true angle is orthogonal. */
  lemma GivensIsOrthogonal(n: nat, dim: nat, a: Angle)
    requires 1 <= dim < n && IsUnit(a)
    ensures IsOrthogonal(Givens(n, dim, a), n)
  {
    MulIdentityRight(Givens(n, dim, a), n);
    GivensPreservesGram(n, dim, a, Identity(n));
    IdentityIsOrthogonal(n);
  }

  /** Every plane of `dims` is a plane of `n`-space. */
  predicate ValidPlanes(n: nat, dims: seq<nat>) {
    forall k :: 0 <= k < |dims| ==> 1 <= dims[k] < n
  }

  /** The running product after the first `k` steps of `dims`, step `t`
      using plane `dims[t]` and angle `angles[t]`:
      `E_k · ... · E_1 · I`, each new multiplier on the left. */
  function Compose(n: nat, dims: seq<nat>, angles: seq<Angle>, k: nat): (r: Matrix)
    requires ValidPlanes(n, dims) && k <= |dims| && k <= |angles|
    ensures IsSquare(r, n)
  {
    if k == 0 then Identity(n)
    else Mul(Givens(n, dims[k - 1], angles[k - 1]), Compose(n, dims, angles, k - 1), n)
  }

  /** One more step premultiplies by that step's multiplier. */
  lemma ComposeStep(n: nat, dims: seq<nat>, angles: seq<Angle>, k: nat)
    requires ValidPlanes(n, dims) && k < |dims| && k < |angles|
    ensures Compose(n, dims, angles, k + 1)
         == Mul(Givens(n, dims[k], angles[k]), Compose(n, dims, angles, k), n)
  {
  }

  /** Inner step `pas - dim` of pass `pas` visits plane `dim`. */
  lemma PlaneAt(d: nat, pas: nat, dim: nat, cursor: nat)
    requires 1 <= dim <= pas < d && cursor == |Schedule(pas)| + (pas - dim)
    ensures cursor < |Schedule(d)| && Schedule(d)[cursor] == dim
  {
    ScheduleAt(d, pas, pas - dim);
  }

  /** What `matrix(d, parameters)` computes when it does not run out of
      parameters. */
  function RotationMatrix(d: nat, angles: seq<Angle>): (r: Matrix)
    requires DegreesOfFreedom(d) <= |angles|
    ensures IsSquare(r, d)
  {
    ScheduleLength(d);
    Compose(d, Schedule(d), angles, |Schedule(d)|)
  }

  /** The result of `matrix`: a matrix, or the angle generator ran dry
      (`next` raises `StopIteration`). */
  datatype Result<T> = Ok(value: T) | Exhausted

  /** One pass of the outer loop of `matrix`: the inner loop
      `for dim in range(pas, 0, -1)`, which pulls the next `pas` angles from
      the cursor and premultiplies by the multipliers of planes
      pas, pas - 1, ..., 1. */
  method RotatePass(d: nat, pas: nat, angles: seq<Angle>, start: Matrix, first: nat)
    returns (r: Result<Matrix>)
    requires 1 <= pas < d && first == |Schedule(pas)| && first <= |angles|
    requires first + pas <= |Schedule(d)|
    requires start == Compose(d, Schedule(d), angles, first)
    ensures r.Exhausted? <==> |angles| < first + pas
    ensures r.Ok? ==> r.value == Compose(d, Schedule(d), angles, first + pas)
  {
    var result := start;
    var cursor := first;
    var dim := pas;
    while dim > 0
      invariant 0 <= dim <= pas
      invariant cursor == first + (pas - dim) && cursor <= |angles|
      invariant result == Compose(d, Schedule(d), angles, cursor)
    {
      if cursor == |angles| {
        return Exhausted;
      }
      PlaneAt(d, pas, dim, cursor);
      ComposeStep(d, Schedule(d), angles, cursor);
      var e := BuildMultiplier(d, dim, angles[cursor]);
      result := Mul(e, result, d);
      cursor := cursor + 1;
      dim := dim - 1;
    }
    return Ok(result);
  }

  /** `matrix(dimension, parameters)`: run the passes `pas` = 1, ..., d - 1
      in order, each continuing from the angle where the previous one
      stopped.  It runs out of angles exactly when fewer than
      `DegreesOfFreedom(d)` are given; otherwise it returns the composition
      of the schedule, and surplus angles are never read. */
  method BuildRotation(d: nat, angles: seq<Angle>) returns (r: Result<Matrix>)
    ensures r.Exhausted? <==> |angles| < DegreesOfFreedom(d)
    ensures r.Ok? ==> r.value == RotationMatrix(d, angles)
  {
    var result := Identity(d);
    var cursor := 0;
    var pas := 1;
    while pas < d
      invariant 1 <= pas && (pas <= d || pas == 1)
      invariant cursor == |Schedule(pas)| && cursor <= |angles| && cursor <= |Schedule(d)|
      invariant result == Compose(d, Schedule(d), angles, cursor)
    {
      ScheduleMonotone(pas + 1, d);
      ScheduleGrows(pas);
      var next := RotatePass(d, pas, angles, result, cursor);
      if next.Exhausted? {
        ScheduleLength(d);
        return Exhausted;
      }
      result := next.value;
      cursor := cursor + pas;
      pas := pas + 1;
    }
    assert Schedule(pas) == Schedule(d);
    ScheduleLength(d);
    return Ok(result);
  }

  /** The multiplier of the angle 0 is the identity. */
  lemma GivensOfZero(n: nat, dim: nat)
    requires 1 <= dim < n
    ensures Givens(n, dim, Zero) == Identity(n)
  {
    var g := Givens(n, dim, Zero);
    forall i | 0 <= i < n
      ensures g[i] == Identity(n)[i]
    {
    }
  }

  /** All-zero angles give the identity. */
  lemma {:induction false} ComposeOfZeros(n: nat, dims: seq<nat>, angles: seq<Angle>, k: nat)
    requires ValidPlanes(n, dims) && k <= |dims| && k <= |angles|
    requires forall t :: 0 <= t < k ==> angles[t] == Zero
    ensures Compose(n, dims, angles, k) == Identity(n)
  {
    if k > 0 {
      ComposeOfZeros(n, dims, angles, k - 1);
      GivensOfZero(n, dims[k - 1]);
      MulIdentityLeft(Identity(n), n);
    }
  }

  lemma RotationOfZeros(d: nat, angles: seq<Angle>)
    requires DegreesOfFreedom(d) <= |angles|
    requires forall k :: 0 <= k < DegreesOfFreedom(d) ==> angles[k] == Zero
    ensures RotationMatrix(d, angles) == Identity(d)
  {
    ScheduleLength(d);
    ComposeOfZeros(d, Schedule(d), angles, |Schedule(d)|);
  }

  /** A product of multipliers of true angles is orthogonal. */
  lemma {:induction false} ComposeIsOrthogonal(n: nat, dims: seq<nat>, angles: seq<Angle>, k: nat)
    requires ValidPlanes(n, dims) && k <= |dims| && k <= |angles|
    requires forall t :: 0 <= t < k ==> IsUnit(angles[t])
    ensures IsOrthogonal(Compose(n, dims, angles, k), n)
  {
    if k == 0 {
      IdentityIsOrthogonal(n);
    } else {
      ComposeIsOrthogonal(n, dims, angles, k - 1);
      GivensPreservesGram(n, dims[k - 1], angles[k - 1], Compose(n, dims, angles, k - 1));
    }
  }

  lemma RotationIsOrthogonal(d: nat, angles: seq<Angle>)
    requires DegreesOfFreedom(d) <= |angles|
    requires forall k :: 0 <= k < DegreesOfFreedom(d) ==> IsUnit(angles[k])
    ensures IsOrthogonal(RotationMatrix(d, angles), d)
  {
    ScheduleLength(d);
    ComposeIsOrthogonal(d, Schedule(d), angles, |Schedule(d)|);
  }

  /** The product of the first `k` steps reads only the first `k` angles. */
  lemma {:induction false} ComposeReadsPrefix(n: nat, dims: seq<nat>, a1: seq<Angle>, a2: seq<Angle>, k: nat)
    requires ValidPlanes(n, dims) && k <= |dims| && k <= |a1| && k <= |a2|
    requires forall t :: 0 <= t < k ==> a1[t] == a2[t]
    ensures Compose(n, dims, a1, k) == Compose(n, dims, a2, k)
  {
    if k > 0 {
      ComposeReadsPrefix(n, dims, a1, a2, k - 1);
    }
  }

  /** Angles beyond the first `DegreesOfFreedom(d)` have no effect. */
  lemma RotationIgnoresSurplus(d: nat, angles: seq<Angle>)
    requires DegreesOfFreedom(d) <= |angles|
    ensures RotationMatrix(d, angles) == RotationMatrix(d, angles[..DegreesOfFreedom(d)])
  {
    ScheduleLength(d);
    ComposeReadsPrefix(d, Schedule(d), angles, angles[..DegreesOfFreedom(d)], |Schedule(d)|);
  }

  /** The order of premultiplication matters: in 3-space the quarter turns
      in planes (0, 1) and (1, 2) do not commute. */
  lemma CompositionOrderMatters()
    ensures Mul(Givens(3, 1, Angle(0.0, 1.0)), Givens(3, 2, Angle(0.0, 1.0)), 3)
         != Mul(Givens(3, 2, Angle(0.0, 1.0)), Givens(3, 1, Angle(0.0, 1.0)), 3)
  {
    var quarter := Angle(0.0, 1.0);
    var a, b := Givens(3, 1, quarter), Givens(3, 2, quarter);
    GivensEntryAction(3, 1, quarter, b, 0, 2);
    GivensEntryAction(3, 2, quarter, a, 0, 2);
    assert b[0][2] == 0.0 && b[1][2] == -1.0;
    assert a[0][2] == 0.0;
    assert Mul(a, b, 3)[0][2] == 1.0;
    assert Mul(b, a, 3)[0][2] == 0.0;
  }
}
