/** Vectors and square matrices of any width over `real`, as sequences. */
module LinearAlgebra {
  type Vector = seq<real>
  type Matrix = seq<seq<real>>

  predicate IsSquare(m: Matrix, n: nat) {
    |m| == n && forall i :: 0 <= i < n ==> |m[i]| == n
  }

  ghost predicate Symmetric(m: Matrix, n: nat)
    requires IsSquare(m, n)
  {
    forall i, j :: 0 <= i < n && 0 <= j < n ==> m[i][j] == m[j][i]
  }

  function Dot(u: Vector, v: Vector): real
    requires |u| == |v|
  {
    if |u| == 0 then 0.0 else Dot(u[..|u|-1], v[..|u|-1]) + u[|u|-1] * v[|u|-1]
  }

  function Add(u: Vector, v: Vector): (w: Vector)
    requires |u| == |v|
    ensures |w| == |u|
  {
    seq(|u|, i requires 0 <= i < |u| => u[i] + v[i])
  }

  function Scale(a: real, u: Vector): (w: Vector)
    ensures |w| == |u|
  {
    seq(|u|, i requires 0 <= i < |u| => a * u[i])
  }

  function Zeros(n: nat): (w: Vector)
    ensures |w| == n
  {
    seq(n, _ => 0.0)
  }

  function Times(m: Matrix, v: Vector): (w: Vector)
    requires forall i :: 0 <= i < |m| ==> |m[i]| == |v|
    ensures |w| == |m|
  {
    seq(|m|, i requires 0 <= i < |m| => Dot(m[i], v))
  }

  /** Row-by-row accumulation of `v` times `m` from the left, for moving a matrix across a dot product. */
  ghost function LeftTimes(m: Matrix, v: Vector, n: nat): (w: Vector)
    requires |m| == |v|
    requires forall i :: 0 <= i < |m| ==> |m[i]| == n
    ensures |w| == n
  {
    if |m| == 0 then Zeros(n)
    else Add(LeftTimes(m[..|m|-1], v[..|m|-1], n), Scale(v[|m|-1], m[|m|-1]))
  }

  // Dot products are bilinear and symmetric.

  lemma {:induction false} DotSymmetric(u: Vector, v: Vector)
    requires |u| == |v|
    ensures Dot(u, v) == Dot(v, u)
  {
    if |u| > 0 { DotSymmetric(u[..|u|-1], v[..|u|-1]); }

  }

  lemma {:induction false} ScalePrefix(a: real, w: Vector, k: nat)
    requires k <= |w|
    ensures Scale(a, w)[..k] == Scale(a, w[..k])
  {
    forall i | 0 <= i < k ensures Scale(a, w)[..k][i] == Scale(a, w[..k])[i] {
      assert w[..k][i] == w[i];
    }
  }

  lemma {:induction false} DotLinear(u: Vector, a: real, v: Vector, w: Vector)
    requires |u| == |v| == |w|
    ensures Dot(u, Add(v, Scale(a, w))) == Dot(u, v) + a * Dot(u, w)
  {
    var n := |u|;
    if n > 0 {
      DotLinear(u[..n-1], a, v[..n-1], w[..n-1]);
      ScalePrefix(a, w, n - 1);
      assert Add(v, Scale(a, w))[..n-1] == Add(v[..n-1], Scale(a, w)[..n-1]);
      assert u[n-1] * (v[n-1] + a * w[n-1]) == u[n-1] * v[n-1] + a * (u[n-1] * w[n-1]);
    }
  }

  lemma {:induction false} DotLinearAs(u: Vector, a: real, v: Vector, w: Vector, product: real)
    requires |u| == |v| == |w| && product == Dot(u, w)
    ensures Dot(u, Add(v, Scale(a, w))) == Dot(u, v) + a * product
  {
    hide Dot, Add, Scale;
    DotLinear(u, a, v, w);
  }

  lemma {:induction false} DotScale(u: Vector, a: real, w: Vector)
    requires |u| == |w|
    ensures Dot(u, Scale(a, w)) == a * Dot(u, w)
  {
    var n := |u|;
    if n > 0 {
      DotScale(u[..n-1], a, w[..n-1]);
      ScalePrefix(a, w, n - 1);
      assert u[n-1] * (a * w[n-1]) == a * (u[n-1] * w[n-1]);
    }
  }

  lemma {:induction false} DotAdd(u: Vector, v: Vector, w: Vector)
    requires |u| == |v| == |w|
    ensures Dot(u, Add(v, w)) == Dot(u, v) + Dot(u, w)
  {
    DotLinear(u, 1.0, v, w);
    assert Scale(1.0, w) == w;
  }

  lemma {:induction false} DotLeftLinear(u: Vector, a: real, w: Vector, v: Vector)
    requires |u| == |w| == |v|
    ensures Dot(Add(u, Scale(a, w)), v) == Dot(u, v) + a * Dot(w, v)
  {
    DotSymmetric(Add(u, Scale(a, w)), v);
    DotLinear(v, a, u, w);
    DotSymmetric(u, v);
    DotSymmetric(w, v);
  }

  lemma {:induction false} DotZeros(u: Vector)
    ensures Dot(u, Zeros(|u|)) == 0.0
  {
    if |u| > 0 {
      DotZeros(u[..|u|-1]);
      assert Zeros(|u|)[..|u|-1] == Zeros(|u|-1);
    }
  }

  /** Products are handed out as variables: the solver reasons poorly about `x * x` itself. */
  lemma {:induction false} PositiveProduct(x: real, y: real) returns (s: real)
    requires x > 0.0 && y > 0.0
    ensures s == x * y && s > 0.0
  {
    s := x * y;
  }

  lemma {:induction false} SquareOf(x: real) returns (s: real)
    ensures s == x * x && s >= 0.0 && (x != 0.0 ==> s > 0.0)
  {
    if x > 0.0 {
      s := PositiveProduct(x, x);
    } else if x < 0.0 {
      s := PositiveProduct(-x, -x);
    } else {
      s := 0.0;
    }
  }

  lemma {:induction false} DotSelf(u: Vector)
    ensures Dot(u, u) >= 0.0
    ensures Dot(u, u) == 0.0 ==> u == Zeros(|u|)
  {
    if |u| > 0 {
      DotSelf(u[..|u|-1]);
      var s := SquareOf(u[|u|-1]);
      assert Dot(u, u) == Dot(u[..|u|-1], u[..|u|-1]) + s;
      assert u == u[..|u|-1] + [u[|u|-1]];
    }
  }

  /** The `i`th unit vector picks out the `i`th entry. */
  function Unit(n: nat, i: nat): (w: Vector)
    requires i < n
    ensures |w| == n
  {
    seq(n, j => if j == i then 1.0 else 0.0)
  }

  lemma {:induction false} DotUnit(u: Vector, i: nat)
    requires i < |u|
    ensures Dot(u, Unit(|u|, i)) == u[i]
  {
    var n := |u|;
    if i == n - 1 {
      assert Unit(n, i)[..n-1] == Zeros(n-1);
      DotZeros(u[..n-1]);
    } else {
      assert Unit(n, i)[..n-1] == Unit(n-1, i);
      DotUnit(u[..n-1], i);
    }
  }

  // Matrix-vector products.

  lemma {:induction false} TimesLinear(m: Matrix, a: real, v: Vector, w: Vector)
    requires |v| == |w|
    requires forall i :: 0 <= i < |m| ==> |m[i]| == |v|
    ensures Times(m, Add(v, Scale(a, w))) == Add(Times(m, v), Scale(a, Times(m, w)))
  {
    hide Dot;
    var left, right := Times(m, Add(v, Scale(a, w))), Add(Times(m, v), Scale(a, Times(m, w)));
    forall i | 0 <= i < |m| ensures left[i] == right[i] {
      DotLinearAs(m[i], a, v, w, Times(m, w)[i]);
    }
  }

  lemma {:induction false} TimesScale(m: Matrix, a: real, w: Vector)
    requires forall i :: 0 <= i < |m| ==> |m[i]| == |w|
    ensures Times(m, Scale(a, w)) == Scale(a, Times(m, w))
  {
    hide Dot;
    forall i | 0 <= i < |m| ensures Times(m, Scale(a, w))[i] == Scale(a, Times(m, w))[i] {
      DotScale(m[i], a, w);
    }
  }

  lemma {:induction false} DotTimesLeft(m: Matrix, u: Vector, v: Vector)
    requires |m| == |v|
    requires forall i :: 0 <= i < |m| ==> |m[i]| == |u|
    ensures Dot(Times(m, u), v) == Dot(u, LeftTimes(m, v, |u|))
  {
    hide Dot;
    var k := |m|;
    DotUnfolded(Times(m, u), v);
    if k == 0 {
      DotZeros(u);
    } else {
      DotTimesLeft(m[..k-1], u, v[..k-1]);
      assert Times(m, u)[..k-1] == Times(m[..k-1], u);
      AddRow(u, LeftTimes(m[..k-1], v[..k-1], |u|), v[k-1], m[k-1]);
    }
  }

  lemma {:induction false} DotUnfolded(u: Vector, v: Vector)
    requires |u| == |v|
    ensures Dot(u, v) == if |u| == 0 then 0.0 else Dot(u[..|u|-1], v[..|u|-1]) + u[|u|-1] * v[|u|-1]
  {
  }

  lemma {:induction false} AddRow(u: Vector, rest: Vector, a: real, row: Vector)
    requires |u| == |rest| == |row|
    ensures Dot(u, Add(rest, Scale(a, row))) == Dot(u, rest) + Dot(row, u) * a
  {
    DotSymmetric(row, u);
    DotLinear(u, a, rest, row);
  }

  lemma {:induction false} LeftTimesAt(m: Matrix, v: Vector, n: nat, j: nat)
    requires |m| == |v| && j < n
    requires forall i :: 0 <= i < |m| ==> |m[i]| == n
    ensures LeftTimes(m, v, n)[j] == Dot(seq(|m|, i requires 0 <= i < |m| => m[i][j]), v)
  {
    var k := |m|;
    var column := seq(k, i requires 0 <= i < k => m[i][j]);
    if k > 0 {
      LeftTimesAt(m[..k-1], v[..k-1], n, j);
      assert column[..k-1] == seq(k-1, i requires 0 <= i < k-1 => m[..k-1][i][j]);
    }
  }

  /** A symmetric matrix moves across a dot product. */
  lemma {:induction false} DotTimesSymmetric(m: Matrix, n: nat, u: Vector, v: Vector)
    requires IsSquare(m, n) && Symmetric(m, n) && |u| == |v| == n
    ensures Dot(Times(m, u), v) == Dot(u, Times(m, v))
  {
    DotTimesLeft(m, u, v);
    forall j | 0 <= j < n ensures LeftTimes(m, v, n)[j] == Times(m, v)[j] {
      LeftTimesAt(m, v, n, j);
      assert seq(n, i requires 0 <= i < n => m[i][j]) == m[j];
    }
    assert LeftTimes(m, v, n) == Times(m, v);
  }
}
