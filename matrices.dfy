/** Square matrices over exact reals, stored row by row, with the product,
    the transpose and the facts about finite sums that the rotation proofs
    rest on.  This stands in for the numpy arrays of the program. */
module Matrices {

  type Matrix = seq<seq<real>>

  /** `m` is an `n` by `n` matrix. */
  predicate IsSquare(m: Matrix, n: nat) {
    |m| == n && forall i :: 0 <= i < n ==> |m[i]| == n
  }

  /** The sum of a finite sequence of reals. */
  function Sum(s: seq<real>): real {
    if s == [] then 0.0 else s[0] + Sum(s[1..])
  }

  function Identity(n: nat): (r: Matrix)
    ensures IsSquare(r, n)
  {
    seq(n, i => seq(n, j => if i == j then 1.0 else 0.0))
  }

  function Transpose(m: Matrix, n: nat): (r: Matrix)
    requires IsSquare(m, n)
    ensures IsSquare(r, n)
  {
    seq(n, i requires 0 <= i < n => seq(n, j requires 0 <= j < n => m[j][i]))
  }

  /** The matrix product `a · b` (numpy's `matmul` on two square operands). */
  function Mul(a: Matrix, b: Matrix, n: nat): (r: Matrix)
    requires IsSquare(a, n) && IsSquare(b, n)
    ensures IsSquare(r, n)
  {
    seq(n, i requires 0 <= i < n => seq(n, j requires 0 <= j < n => Dot(a, b, n, i, j)))
  }

  /** Entry `(i, j)` of `a · b`: row `i` of `a` against column `j` of `b`. */
  function Dot(a: Matrix, b: Matrix, n: nat, i: nat, j: nat): real
    requires IsSquare(a, n) && IsSquare(b, n) && i < n && j < n
  {
    Sum(Products(a, b, n, i, j))
  }

  /** The termwise products of row `i` of `a` and column `j` of `b`. */
  function Products(a: Matrix, b: Matrix, n: nat, i: nat, j: nat): (r: seq<real>)
    requires IsSquare(a, n) && IsSquare(b, n) && i < n && j < n
    ensures |r| == n && forall q :: 0 <= q < n ==> r[q] == a[i][q] * b[q][j]
  {
    seq(n, q requires 0 <= q < n => a[i][q] * b[q][j])
  }

  /** `mᵀ · m = I`: the columns of `m` are orthonormal. */
  predicate IsOrthogonal(m: Matrix, n: nat)
    requires IsSquare(m, n)
  {
    Mul(Transpose(m, n), m, n) == Identity(n)
  }

  /** Replacing one term of a sum changes the sum by the difference. */
  lemma {:induction false} SumUpdate(s: seq<real>, p: nat, x: real)
    requires p < |s|
    ensures Sum(s[p := x]) == Sum(s) - s[p] + x
  {
    if p == 0 {
      assert s[p := x][1..] == s[1..];
    } else {
      assert s[p := x][1..] == s[1..][p - 1 := x];
      SumUpdate(s[1..], p - 1, x);
    }
  }

  lemma {:induction false} SumZeros(s: seq<real>)
    requires forall q :: 0 <= q < |s| ==> s[q] == 0.0
    ensures Sum(s) == 0.0
  {
    if s != [] {
      SumZeros(s[1..]);
    }
  }

  /** A sum with a single non-zero term is that term. */
  lemma SumSingle(s: seq<real>, p: nat)
    requires p < |s|
    requires forall q :: 0 <= q < |s| && q != p ==> s[q] == 0.0
    ensures Sum(s) == s[p]
  {
    var z := s[p := 0.0];
    SumZeros(z);
    assert z[p := s[p]] == s;
    SumUpdate(z, p, s[p]);
  }

  /** A sum with two non-zero terms is their sum. */
  lemma SumPair(s: seq<real>, p: nat, q: nat)
    requires p < |s| && q < |s| && p != q
    requires forall t :: 0 <= t < |s| && t != p && t != q ==> s[t] == 0.0
    ensures Sum(s) == s[p] + s[q]
  {
    var z := s[p := 0.0][q := 0.0];
    SumZeros(z);
    assert z[p := s[p]][q := s[q]] == s;
    SumUpdate(z, p, s[p]);
    SumUpdate(z[p := s[p]], q, s[q]);
  }

  /** Two sums whose terms agree except at `p` and `q`, where the two terms
      add up to the same amount, are equal. */
  lemma SumExchangePair(s: seq<real>, t: seq<real>, p: nat, q: nat)
    requires |s| == |t| && p < |s| && q < |s| && p != q
    requires forall k :: 0 <= k < |s| && k != p && k != q ==> s[k] == t[k]
    requires s[p] + s[q] == t[p] + t[q]
    ensures Sum(s) == Sum(t)
  {
    assert s[p := t[p]][q := t[q]] == t;
    SumUpdate(s, p, t[p]);
    SumUpdate(s[p := t[p]], q, t[q]);
  }

  lemma MulIdentityLeft(m: Matrix, n: nat)
    requires IsSquare(m, n)
    ensures Mul(Identity(n), m, n) == m
  {
    var r := Mul(Identity(n), m, n);
    forall i | 0 <= i < n
      ensures r[i] == m[i]
    {
      forall j | 0 <= j < n
        ensures r[i][j] == m[i][j]
      {
        SumSingle(Products(Identity(n), m, n, i, j), i);
      }
    }
  }

  lemma MulIdentityRight(m: Matrix, n: nat)
    requires IsSquare(m, n)
    ensures Mul(m, Identity(n), n) == m
  {
    var r := Mul(m, Identity(n), n);
    forall i | 0 <= i < n
      ensures r[i] == m[i]
    {
      forall j | 0 <= j < n
        ensures r[i][j] == m[i][j]
      {
        SumSingle(Products(m, Identity(n), n, i, j), j);
      }
    }
  }

  /** The termwise products of columns `k` and `l` of `m`. */
  function ColumnProducts(m: Matrix, n: nat, k: nat, l: nat): (r: seq<real>)
    requires IsSquare(m, n) && k < n && l < n
    ensures |r| == n && forall q :: 0 <= q < n ==> r[q] == m[q][k] * m[q][l]
  {
    seq(n, q requires 0 <= q < n => m[q][k] * m[q][l])
  }

  /** Entry `(k, l)` of `mᵀ · m` is the dot product of columns `k` and `l`. */
  lemma GramEntry(m: Matrix, n: nat, k: nat, l: nat)
    requires IsSquare(m, n) && k < n && l < n
    ensures Mul(Transpose(m, n), m, n)[k][l] == Sum(ColumnProducts(m, n, k, l))
  {
    var t := Transpose(m, n);
    var terms := Products(t, m, n, k, l);
    assert Mul(t, m, n)[k][l] == Sum(terms);
    forall q | 0 <= q < n
      ensures terms[q] == ColumnProducts(m, n, k, l)[q]
    {
      assert t[k][q] == m[q][k];
    }
    assert terms == ColumnProducts(m, n, k, l);
  }

  lemma IdentityIsOrthogonal(n: nat)
    ensures IsOrthogonal(Identity(n), n)
  {
    var t := Transpose(Identity(n), n);
    forall i | 0 <= i < n
      ensures t[i] == Identity(n)[i]
    {
    }
    assert t == Identity(n);
    MulIdentityLeft(Identity(n), n);
  }
}
