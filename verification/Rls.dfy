/** Recursive least squares (`engine/src/flyball/adaptive/rls.py`): the in-place estimator of any width.

    The update is written as in the source, cell by cell, and proved against value-level
    functions; the theorems about those functions say that the recursive form is the batch
    fit: after any run the parameters are the one minimiser of the forgetting-weighted
    squared error, whether or not the covariance cap has fired on the way. */
module Rls {
  import opened LinearAlgebra

  datatype Settings = Settings(width: nat, forgetting: real, limit: real) {
    predicate Valid() { 0.0 < forgetting <= 1.0 && limit > 0.0 }
  }

  datatype Estimate = Estimate(parameters: Vector, covariance: Matrix) {
    predicate Fits(n: nat) { |parameters| == n && IsSquare(covariance, n) }
  }

  datatype Sample = Sample(regressor: Vector, output: real)

  predicate Fitting(samples: seq<Sample>, n: nat) {
    forall i :: 0 <= i < |samples| ==> |samples[i].regressor| == n
  }

  datatype Outcome = Residual(value: real) | RegressorMismatch(expected: nat, got: nat) | DivisionByZero

  // What one update computes.

  function Start(n: nat, initial: real): Estimate {
    Estimate(Zeros(n), Diagonal(n, initial))
  }

  predicate Usable(cfg: Settings, e: Estimate, phi: Vector) {
    && cfg.Valid() && e.Fits(cfg.width) && |phi| == cfg.width
    && Denominator(cfg.forgetting, e.covariance, phi) != 0.0
  }

  function Diagonal(n: nat, scale: real): (m: Matrix)
    ensures IsSquare(m, n)
  {
    seq(n, i => seq(n, j => if i == j then scale else 0.0))
  }

  function Trace(m: Matrix, k: nat): real
    requires IsSquare(m, |m|) && k <= |m|
  {
    if k == 0 then 0.0 else Trace(m, k - 1) + m[k-1][k-1]
  }

  function Denominator(forgetting: real, p: Matrix, phi: Vector): real
    requires IsSquare(p, |phi|)
  {
    forgetting + Dot(phi, Times(p, phi))
  }

  function Divided(v: Vector, d: real): (w: Vector)
    requires d != 0.0
    ensures |w| == |v|
  {
    seq(|v|, i requires 0 <= i < |v| => v[i] / d)
  }

  function NextRow(row: Vector, gain: real, scaled: Vector, forgetting: real): (w: Vector)
    requires |row| == |scaled| && forgetting != 0.0
    ensures |w| == |row|
  {
    seq(|row|, j requires 0 <= j < |row| => (row[j] - gain * scaled[j]) / forgetting)
  }

  function NextCovariance(p: Matrix, gain: Vector, scaled: Vector, forgetting: real): (m: Matrix)
    requires IsSquare(p, |scaled|) && |gain| == |scaled| && forgetting != 0.0
    ensures IsSquare(m, |p|)
  {
    seq(|p|, i requires 0 <= i < |p| => NextRow(p[i], gain[i], scaled, forgetting))
  }

  function Rescale(p: Matrix, factor: real): (m: Matrix)
    ensures |m| == |p| && forall i :: 0 <= i < |p| ==> |m[i]| == |p[i]|
  {
    seq(|p|, i requires 0 <= i < |p| => Scale(factor, p[i]))
  }

  /** The factor `_bound_covariance` multiplies by, 1 while the cap has not fired. */
  function CapFactor(limit: real, p: Matrix): real
    requires IsSquare(p, |p|) && limit > 0.0
  {
    var total := Trace(p, |p|);
    if total <= limit then 1.0 else limit / total
  }

  function Fold(cfg: Settings, e: Estimate, s: Sample): (next: Estimate)
    requires Usable(cfg, e, s.regressor)
    ensures next.Fits(cfg.width)
  {
    var scaled := Times(e.covariance, s.regressor);
    var gain := Divided(scaled, Denominator(cfg.forgetting, e.covariance, s.regressor));
    var residual := s.output - Dot(s.regressor, e.parameters);
    Estimate(Add(e.parameters, Scale(residual, gain)),
             NextCovariance(e.covariance, gain, scaled, cfg.forgetting))
  }

  function Capped(cfg: Settings, e: Estimate): (next: Estimate)
    requires cfg.Valid() && e.Fits(cfg.width)
    ensures next.Fits(cfg.width)
  {
    var factor := CapFactor(cfg.limit, e.covariance);
    if factor == 1.0 then e else Estimate(e.parameters, Rescale(e.covariance, factor))
  }

  // The batch problem: what the history of folds and caps asks to be minimised.

  datatype Event = Sampled(sample: Sample) | Rescaled(factor: real)

  ghost predicate GoodEvent(event: Event, n: nat) {
    match event
    case Sampled(s) => |s.regressor| == n
    case Rescaled(f) => f > 0.0
  }

  ghost predicate GoodHistory(h: seq<Event>, n: nat) {
    forall i :: 0 <= i < |h| ==> GoodEvent(h[i], n)
  }

  /** The weighted squared error of `x`: each later sample discounts the earlier ones by
      `forgetting`, the prior pulls towards zero, and a cap by `f` scales all of it by `1/f`. */
  ghost function Cost(h: seq<Event>, prior: real, forgetting: real, x: Vector): real
    requires prior > 0.0 && GoodHistory(h, |x|)
  {
    if h == [] then Over(Dot(x, x), prior)
    else
      GrownCost(h[|h|-1], forgetting, Cost(h[..|h|-1], prior, forgetting, x), x)
  }

  ghost function GrownCost(event: Event, forgetting: real, before: real, x: Vector): real
    requires GoodEvent(event, |x|)
  {
    match event
    case Sampled(s) =>
      Mul(forgetting, before) + Squared(s.output - Dot(s.regressor, x))
    case Rescaled(f) => Over(before, f)
  }

  // Products and quotients by name, so that the solver treats them as terms where only equality matters.

  function Mul(a: real, b: real): real { a * b }

  function Twice(a: real): real { a + a }

  function Squared(a: real): real { a * a }

  function Over(a: real, b: real): real
    requires b != 0.0
  {
    a / b
  }

  /** The information matrix of the history, as the linear map it is. */
  ghost function Information(h: seq<Event>, prior: real, forgetting: real, z: Vector): (w: Vector)
    requires prior > 0.0 && GoodHistory(h, |z|)
    ensures |w| == |z|
  {
    if h == [] then Scale(Over(1.0, prior), z)
    else
      GrownInformation(h[|h|-1], forgetting, Information(h[..|h|-1], prior, forgetting, z), z)
  }

  ghost function GrownInformation(event: Event, forgetting: real, before: Vector, z: Vector): (w: Vector)
    requires |before| == |z| && GoodEvent(event, |z|)
    ensures |w| == |z|
  {
    match event
    case Sampled(s) => Combine(forgetting, before, Dot(s.regressor, z), s.regressor)
    case Rescaled(f) => Scale(Over(1.0, f), before)
  }

  /** The right-hand side of the normal equations. */
  ghost function Moment(h: seq<Event>, forgetting: real, n: nat): (w: Vector)
    requires GoodHistory(h, n)
    ensures |w| == n
  {
    if h == [] then Zeros(n)
    else
      GrownMoment(h[|h|-1], forgetting, Moment(h[..|h|-1], forgetting, n))
  }

  ghost function GrownMoment(event: Event, forgetting: real, before: Vector): (w: Vector)
    requires GoodEvent(event, |before|)
    ensures |w| == |before|
  {
    match event
    case Sampled(s) => Combine(forgetting, before, s.output, s.regressor)
    case Rescaled(f) => Scale(Over(1.0, f), before)
  }

  ghost predicate PositiveSemidefinite(p: Matrix, n: nat)
    requires IsSquare(p, n)
  {
    forall z: Vector {:trigger PositiveOn(p, n, z)} :: |z| == n ==> PositiveOn(p, n, z)
  }

  ghost predicate PositiveOn(p: Matrix, n: nat, z: Vector)
    requires IsSquare(p, n) && |z| == n
  {
    Dot(z, Times(p, z)) >= 0.0
  }

  ghost predicate Inverse(p: Matrix, h: seq<Event>, prior: real, forgetting: real, n: nat)
    requires IsSquare(p, n) && prior > 0.0 && GoodHistory(h, n)
  {
    forall z: Vector {:trigger InverseOn(p, h, prior, forgetting, n, z)} ::
      |z| == n ==> InverseOn(p, h, prior, forgetting, n, z)
  }

  ghost predicate InverseOn(p: Matrix, h: seq<Event>, prior: real, forgetting: real, n: nat, z: Vector)
    requires IsSquare(p, n) && prior > 0.0 && GoodHistory(h, n) && |z| == n
  {
    && Times(p, Information(h, prior, forgetting, z)) == z
    && Information(h, prior, forgetting, Times(p, z)) == z
  }

  /** What every update keeps. */
  ghost predicate Tracks(cfg: Settings, e: Estimate, h: seq<Event>, prior: real) {
    && cfg.Valid() && prior > 0.0
    && e.Fits(cfg.width)
    && GoodHistory(h, cfg.width)
    && Symmetric(e.covariance, cfg.width)
    && PositiveSemidefinite(e.covariance, cfg.width)
    && Inverse(e.covariance, h, prior, cfg.forgetting, cfg.width)
    && Information(h, prior, cfg.forgetting, e.parameters) == Moment(h, cfg.forgetting, cfg.width)
  }

  // The information map is linear.

  function Combine(k: real, v: Vector, a: real, w: Vector): (r: Vector)
    requires |v| == |w|
    ensures |r| == |v|
  {
    Add(Scale(k, v), Scale(a, w))
  }

  lemma {:induction false} CombineLinear(k: real, bu: Vector, bw: Vector, pu: real, pw: real, f: Vector, a: real)
    requires |bu| == |bw| == |f|
    ensures Combine(k, Add(bu, Scale(a, bw)), pu + a * pw, f)
         == Add(Combine(k, bu, pu, f), Scale(a, Combine(k, bw, pw, f)))
  {
    var left := Combine(k, Add(bu, Scale(a, bw)), pu + a * pw, f);
    var right := Add(Combine(k, bu, pu, f), Scale(a, Combine(k, bw, pw, f)));
    forall i | 0 <= i < |f| ensures left[i] == right[i] {
    }
  }

  lemma {:induction false} ScaleLinear(k: real, u: Vector, a: real, w: Vector)
    requires |u| == |w|
    ensures Scale(k, Add(u, Scale(a, w))) == Add(Scale(k, u), Scale(a, Scale(k, w)))
  {
    var left, right := Scale(k, Add(u, Scale(a, w))), Add(Scale(k, u), Scale(a, Scale(k, w)));
    forall i | 0 <= i < |u| ensures left[i] == right[i] {
    }
  }

  lemma {:induction false} InformationLinear(h: seq<Event>, prior: real, forgetting: real, u: Vector, a: real,
      w: Vector)
    requires prior > 0.0 && |u| == |w| && GoodHistory(h, |u|)
    ensures Information(h, prior, forgetting, Add(u, Scale(a, w)))
         == Add(Information(h, prior, forgetting, u), Scale(a, Information(h, prior, forgetting, w)))
  {
    if h == [] {
      ScaleLinear(1.0 / prior, u, a, w);
    } else {
      var g := h[..|h|-1];
      var bu, bw := Information(g, prior, forgetting, u), Information(g, prior, forgetting, w);
      InformationLinear(g, prior, forgetting, u, a, w);
      match h[|h|-1] {
        case Sampled(s) =>
          var pu, pw := Dot(s.regressor, u), Dot(s.regressor, w);
          var pz := Dot(s.regressor, Add(u, Scale(a, w)));
          assert pz == pu + a * pw by { DotLinear(s.regressor, a, u, w); }
          CombineLinear(forgetting, bu, bw, pu, pw, s.regressor, a);
          assert Information(h, prior, forgetting, Add(u, Scale(a, w)))
              == Combine(forgetting, Add(bu, Scale(a, bw)), pz, s.regressor);
        case Rescaled(f) =>
          ScaleLinear(1.0 / f, bu, a, bw);
      }
    }
  }

  lemma {:induction false} InformationZeros(h: seq<Event>, prior: real, forgetting: real, n: nat)
    requires prior > 0.0 && GoodHistory(h, n)
    ensures Information(h, prior, forgetting, Zeros(n)) == Zeros(n)
  {
    var zero := Zeros(n);
    var image := Information(h, prior, forgetting, zero);
    InformationLinear(h, prior, forgetting, zero, 1.0, zero);
    assert Add(zero, Scale(1.0, zero)) == zero;
    forall i | 0 <= i < n ensures image[i] == 0.0 {
    }
  }

  lemma {:induction false} InformationScale(h: seq<Event>, prior: real, forgetting: real, a: real, w: Vector)
    requires prior > 0.0 && GoodHistory(h, |w|)
    ensures Information(h, prior, forgetting, Scale(a, w)) == Scale(a, Information(h, prior, forgetting, w))
  {
    InformationZeros(h, prior, forgetting, |w|);
    InformationLinear(h, prior, forgetting, Zeros(|w|), a, w);
    assert Add(Zeros(|w|), Scale(a, w)) == Scale(a, w);
  }

  // Sherman-Morrison: how the in-place rank-one correction acts on a vector.

  /** `-(s . v) / d`, the multiple of `s` that one update adds to `P v`. */
  function Correction(s: Vector, v: Vector, d: real): real
    requires |s| == |v| && d != 0.0
  {
    -Dot(s, v) / d
  }

  lemma {:induction false} NextRowVector(row: Vector, gain: real, s: Vector, forgetting: real)
    requires |row| == |s| && forgetting != 0.0
    ensures NextRow(row, gain, s, forgetting) == Scale(1.0 / forgetting, Add(row, Scale(-gain, s)))
  {
    var next, right := NextRow(row, gain, s, forgetting), Scale(1.0 / forgetting, Add(row, Scale(-gain, s)));
    forall j | 0 <= j < |row| ensures next[j] == right[j] {
      NextRowAt(row[j], gain, s[j], forgetting);
    }
  }

  lemma {:induction false} DotCorrected(k: real, row: Vector, a: real, s: Vector, v: Vector)
    requires |row| == |s| == |v|
    ensures Dot(Scale(k, Add(row, Scale(a, s))), v) == k * (Dot(row, v) + a * Dot(s, v))
  {
    var sum := Add(row, Scale(a, s));
    DotSymmetric(Scale(k, sum), v);
    DotScale(v, k, sum);
    DotLinear(v, a, row, s);
    DotSymmetric(row, v);
    DotSymmetric(s, v);
  }

  lemma {:induction false} NextRowAt(r: real, gain: real, s: real, forgetting: real)
    requires forgetting != 0.0
    ensures (r - gain * s) / forgetting == 1.0 / forgetting * (r + -gain * s)
  {
  }

  lemma {:induction false} NextTimesAt(row: Vector, si: real, s: Vector, d: real, forgetting: real, v: Vector)
    requires |row| == |s| == |v| && d != 0.0 && forgetting != 0.0
    ensures Dot(NextRow(row, si / d, s, forgetting), v)
         == 1.0 / forgetting * (Dot(row, v) + Correction(s, v, d) * si)
  {
    hide *;
    NextRowVector(row, si / d, s, forgetting);
    DotCorrected(1.0 / forgetting, row, -(si / d), s, v);
    CorrectionAt(s, v, si, d);
  }

  lemma {:induction false} NextTimes(p: Matrix, s: Vector, d: real, forgetting: real, v: Vector)
    requires IsSquare(p, |s|) && |v| == |s| && d != 0.0 && forgetting != 0.0
    ensures Times(NextCovariance(p, Divided(s, d), s, forgetting), v)
         == Scale(1.0 / forgetting, Add(Times(p, v), Scale(Correction(s, v, d), s)))
  {
    hide Dot, Correction, NextRow;
    var next := NextCovariance(p, Divided(s, d), s, forgetting);
    var right := Scale(1.0 / forgetting, Add(Times(p, v), Scale(Correction(s, v, d), s)));
    forall i | 0 <= i < |s| ensures Times(next, v)[i] == right[i] {
      NextTimesAt(p[i], s[i], s, d, forgetting, v);
      assert next[i] == NextRow(p[i], s[i] / d, s, forgetting);
    }
  }

  lemma {:induction false} CorrectionAt(s: Vector, v: Vector, si: real, d: real)
    requires |s| == |v| && d != 0.0
    ensures -(si / d) * Dot(s, v) == Correction(s, v, d) * si
  {
  }

  lemma {:induction false} CombineImage(h: seq<Event>, prior: real, forgetting: real, p: Matrix, n: nat, k: real,
      z: Vector, a: real, phi: Vector)
    requires IsSquare(p, n) && prior > 0.0 && GoodHistory(h, n) && |z| == |phi| == n
    requires Inverse(p, h, prior, forgetting, n)
    ensures Times(p, Combine(k, Information(h, prior, forgetting, z), a, phi))
         == Combine(k, z, a, Times(p, phi))
  {
    var iz := Information(h, prior, forgetting, z);
    InverseAt(h, prior, forgetting, p, n, z);
    TimesLinear(p, a, Scale(k, iz), phi);
    TimesScale(p, k, iz);
  }

  /** `(1/k) ((k z + a s) - a s)` is `z`. */
  lemma {:induction false} CombineCancels(k: real, z: Vector, a: real, s: Vector)
    requires |z| == |s| && k != 0.0
    ensures Scale(1.0 / k, Add(Combine(k, z, a, s), Scale(-a, s))) == z
  {
    var left := Scale(1.0 / k, Add(Combine(k, z, a, s), Scale(-a, s)));
    forall i | 0 <= i < |z| ensures left[i] == z[i] {
      CancelAt(k, z[i], a, s[i]);
    }
  }

  lemma {:induction false} CancelAt(k: real, z: real, a: real, s: real)
    requires k != 0.0
    ensures 1.0 / k * (k * z + a * s + -a * s) == z
  {
  }

  lemma {:induction false} InverseAt(h: seq<Event>, prior: real, forgetting: real, p: Matrix, n: nat, z: Vector)
    requires IsSquare(p, n) && prior > 0.0 && GoodHistory(h, n) && |z| == n
    requires Inverse(p, h, prior, forgetting, n)
    ensures Times(p, Information(h, prior, forgetting, z)) == z
    ensures Information(h, prior, forgetting, Times(p, z)) == z
  {
    assert InverseOn(p, h, prior, forgetting, n, z);
  }

  /** After a fold, the corrected covariance undoes the grown information. */
  lemma {:induction false} FoldLeftInverse(h: seq<Event>, prior: real, forgetting: real, p: Matrix, n: nat,
      phi: Vector, z: Vector)
    requires IsSquare(p, n) && Symmetric(p, n) && prior > 0.0 && forgetting > 0.0
    requires GoodHistory(h, n) && |z| == |phi| == n
    requires Inverse(p, h, prior, forgetting, n)
    requires Denominator(forgetting, p, phi) != 0.0
    ensures var s, d := Times(p, phi), Denominator(forgetting, p, phi);
      Times(NextCovariance(p, Divided(s, d), s, forgetting),
            Combine(forgetting, Information(h, prior, forgetting, z), Dot(phi, z), phi)) == z
  {
    hide Dot, Times, Information, NextCovariance, Divided, Combine, Inverse, Symmetric, Correction;
    var s, d := Times(p, phi), Denominator(forgetting, p, phi);
    var iz := Information(h, prior, forgetting, z);
    var pz := Dot(phi, z);
    var grown := Combine(forgetting, iz, pz, phi);
    NextTimes(p, s, d, forgetting, grown);
    assert Times(p, grown) == Combine(forgetting, z, pz, s) by {
      CombineImage(h, prior, forgetting, p, n, forgetting, z, pz, phi);
    }
    assert Correction(s, grown, d) == -pz by {
      InverseAcross(h, prior, forgetting, p, n, phi, z);
      GrownCorrection(s, iz, phi, pz, d, forgetting, Dot(phi, s));
    }
    CombineCancels(forgetting, z, pz, s);
  }

  lemma {:induction false} GrownCorrection(s: Vector, iz: Vector, phi: Vector, pz: real, d: real, forgetting: real,
      q: real)
    requires |s| == |iz| == |phi| && d != 0.0
    requires Dot(s, iz) == pz && Dot(phi, s) == q && d == forgetting + q
    ensures Correction(s, Combine(forgetting, iz, pz, phi), d) == -pz
  {
    hide Dot, Add, Scale, Combine, Mul;
    DotSymmetric(phi, s);
    DotCombined(s, forgetting, iz, pz, phi);
    Distributes(forgetting, pz, q, d);
    DivideBack(Dot(s, Combine(forgetting, iz, pz, phi)), pz, d);
  }

  lemma {:induction false} Distributes(forgetting: real, pz: real, q: real, d: real)
    requires d == forgetting + q
    ensures Mul(forgetting, pz) + Mul(pz, q) == pz * d
  {
  }

  lemma {:induction false} DivideBack(x: real, a: real, d: real)
    requires d != 0.0 && x == a * d
    ensures -x / d == -a
  {
  }

  lemma {:induction false} InverseAcross(h: seq<Event>, prior: real, forgetting: real, p: Matrix, n: nat,
      phi: Vector, z: Vector)
    requires IsSquare(p, n) && Symmetric(p, n) && prior > 0.0
    requires GoodHistory(h, n) && |z| == |phi| == n
    requires Inverse(p, h, prior, forgetting, n)
    ensures Dot(Times(p, phi), Information(h, prior, forgetting, z)) == Dot(phi, z)
  {
    InverseAt(h, prior, forgetting, p, n, z);
    DotTimesSymmetric(p, n, phi, Information(h, prior, forgetting, z));
  }

  /** And the grown information undoes the corrected covariance. */
  lemma {:induction false} FoldRightInverse(h: seq<Event>, prior: real, forgetting: real, p: Matrix, n: nat,
      phi: Vector, v: Vector)
    requires IsSquare(p, n) && Symmetric(p, n) && prior > 0.0 && forgetting > 0.0
    requires GoodHistory(h, n) && |v| == |phi| == n
    requires Inverse(p, h, prior, forgetting, n)
    requires Denominator(forgetting, p, phi) != 0.0
    ensures var s, d := Times(p, phi), Denominator(forgetting, p, phi);
      var w := Times(NextCovariance(p, Divided(s, d), s, forgetting), v);
      Combine(forgetting, Information(h, prior, forgetting, w), Dot(phi, w), phi) == v
  {
    hide Dot, Times, Information, NextCovariance, Divided, Combine, Symmetric, Correction, Inverse, Add, Scale;
    var s, d := Times(p, phi), Denominator(forgetting, p, phi);
    var a, k := Correction(s, v, d), 1.0 / forgetting;
    var sum := Add(Times(p, v), Scale(a, s));
    NextTimes(p, s, d, forgetting, v);
    CorrectedInformation(h, prior, forgetting, p, n, phi, v, a, k);
    assert Dot(phi, Scale(k, sum)) == -a by {
      assert Dot(phi, Times(p, v)) == Dot(s, v) by { DotTimesSymmetric(p, n, phi, v); }
      CorrectedPrediction(phi, Times(p, v), s, v, a, d, forgetting);
    }
    GrowBack(forgetting, v, a, phi);
  }

  lemma {:induction false} CorrectedInformation(h: seq<Event>, prior: real, forgetting: real, p: Matrix, n: nat,
      phi: Vector, v: Vector, a: real, k: real)
    requires IsSquare(p, n) && prior > 0.0 && GoodHistory(h, n) && |v| == |phi| == n
    requires Inverse(p, h, prior, forgetting, n)
    ensures Information(h, prior, forgetting, Scale(k, Add(Times(p, v), Scale(a, Times(p, phi)))))
         == Scale(k, Add(v, Scale(a, phi)))
  {
    InverseAt(h, prior, forgetting, p, n, v);
    InverseAt(h, prior, forgetting, p, n, phi);
    InformationScale(h, prior, forgetting, k, Add(Times(p, v), Scale(a, Times(p, phi))));
    InformationLinear(h, prior, forgetting, Times(p, v), a, Times(p, phi));
  }

  lemma {:induction false} CorrectedPrediction(phi: Vector, pv: Vector, s: Vector, v: Vector, a: real, d: real,
      forgetting: real)
    requires |phi| == |pv| == |s| == |v| && d != 0.0 && forgetting != 0.0
    requires a == Correction(s, v, d) && d == forgetting + Dot(phi, s) && Dot(phi, pv) == Dot(s, v)
    ensures Dot(phi, Scale(1.0 / forgetting, Add(pv, Scale(a, s)))) == -a
  {
    hide Dot, Add, Scale;
    var sum := Dot(phi, Add(pv, Scale(a, s)));
    DotScale(phi, 1.0 / forgetting, Add(pv, Scale(a, s)));
    DotLinear(phi, a, pv, s);
    CorrectionScalar(Dot(s, v), a, d, forgetting, Dot(phi, s), sum);
  }

  lemma {:induction false} CorrectionScalar(sv: real, a: real, d: real, forgetting: real, q: real, sum: real)
    requires d != 0.0 && forgetting != 0.0
    requires a == -sv / d && d == forgetting + q && sum == sv + a * q
    ensures 1.0 / forgetting * sum == -a
  {
    assert a * d == -sv;
    assert a * d == a * forgetting + a * q;
    assert sum == -a * forgetting;
    DivideOut(forgetting, -a);
  }

  lemma {:induction false} DivideOut(k: real, a: real)
    requires k != 0.0
    ensures 1.0 / k * (a * k) == a
  {
  }

  lemma {:induction false} GrowBack(k: real, v: Vector, a: real, phi: Vector)
    requires |v| == |phi| && k != 0.0
    ensures Combine(k, Scale(1.0 / k, Add(v, Scale(a, phi))), -a, phi) == v
  {
    var left := Combine(k, Scale(1.0 / k, Add(v, Scale(a, phi))), -a, phi);
    forall i | 0 <= i < |v| ensures left[i] == v[i] {
      GrowBackAt(k, v[i], a, phi[i]);
    }
  }

  lemma {:induction false} GrowBackAt(k: real, v: real, a: real, f: real)
    requires k != 0.0
    ensures k * (1.0 / k * (v + a * f)) + -a * f == v
  {
  }

  /** The corrected parameters solve the grown normal equations. */
  lemma {:induction false} FoldSolves(h: seq<Event>, prior: real, forgetting: real, p: Matrix, n: nat, theta: Vector,
      b: Vector, phi: Vector, y: real)
    requires IsSquare(p, n) && prior > 0.0 && forgetting > 0.0
    requires GoodHistory(h, n) && |theta| == |b| == |phi| == n
    requires Inverse(p, h, prior, forgetting, n)
    requires Information(h, prior, forgetting, theta) == b
    requires Denominator(forgetting, p, phi) != 0.0
    ensures var s, d := Times(p, phi), Denominator(forgetting, p, phi);
      var next := Add(theta, Scale(y - Dot(phi, theta), Divided(s, d)));
      Combine(forgetting, Information(h, prior, forgetting, next), Dot(phi, next), phi)
        == Combine(forgetting, b, y, phi)
  {
    hide Dot, Times, Information, Combine, Divided, Inverse, Add, Scale;
    var s, d := Times(p, phi), Denominator(forgetting, p, phi);
    var r := y - Dot(phi, theta);
    var t := r / d;
    GainScale(r, s, d);
    var next := Add(theta, Scale(t, s));
    InformationLinear(h, prior, forgetting, theta, t, s);
    InverseAt(h, prior, forgetting, p, n, phi);
    assert Information(h, prior, forgetting, next) == Add(b, Scale(t, phi));
    DotLinear(phi, t, theta, s);
    SolvesCombine(forgetting, b, t, phi, Dot(phi, next), y, r, d, Dot(phi, s));
  }

  lemma {:induction false} GainScale(r: real, s: Vector, d: real)
    requires d != 0.0
    ensures Scale(r, Divided(s, d)) == Scale(r / d, s)
  {
    forall i | 0 <= i < |s| ensures Scale(r, Divided(s, d))[i] == Scale(r / d, s)[i] {
      GainScaleAt(r, s[i], d);
    }
  }

  lemma {:induction false} GainScaleAt(r: real, s: real, d: real)
    requires d != 0.0
    ensures r * (s / d) == r / d * s
  {
  }

  lemma {:induction false} SolvesCombine(k: real, b: Vector, t: real, phi: Vector, predicted: real, y: real, r: real,
      d: real, q: real)
    requires |b| == |phi| && d != 0.0 && t == r / d && d == k + q
    requires predicted == y - r + t * q
    ensures Combine(k, Add(b, Scale(t, phi)), predicted, phi) == Combine(k, b, y, phi)
  {
    var shifted := Add(b, Scale(t, phi));
    var left, right := Combine(k, shifted, predicted, phi), Combine(k, b, y, phi);
    assert t * d == r;
    assert t * (k + q) == t * k + t * q;
    forall i | 0 <= i < |b| ensures left[i] == right[i] {
      SolvesAt(k, b[i], t, phi[i], predicted, y, shifted[i]);
    }
  }

  lemma {:induction false} SolvesAt(k: real, b: real, t: real, f: real, predicted: real, y: real, shifted: real)
    requires predicted + k * t == y && shifted == b + t * f
    ensures k * shifted + predicted * f == k * b + y * f
  {
    assert k * shifted == k * b + k * (t * f);
    assert y * f == predicted * f + k * t * f;
  }

  // The covariance stays symmetric and positive semidefinite.

  lemma {:induction false} FoldSymmetric(p: Matrix, n: nat, s: Vector, d: real, forgetting: real)
    requires IsSquare(p, n) && Symmetric(p, n) && |s| == n && d != 0.0 && forgetting != 0.0
    ensures Symmetric(NextCovariance(p, Divided(s, d), s, forgetting), n)
  {
  }

  /** The quadratic form on `phi + t z`, split by linearity. */
  lemma {:induction false} QuadraticForm(p: Matrix, n: nat, phi: Vector, t: real, z: Vector) returns (dx: real,
      dz: real)
    requires IsSquare(p, n) && Symmetric(p, n) && |phi| == |z| == n
    ensures var x := Add(phi, Scale(t, z));
      Dot(x, Times(p, x)) == dx + t * dz
    ensures dx == Dot(phi, Times(p, phi)) + t * Dot(z, Times(p, phi))
    ensures dz == Dot(z, Times(p, phi)) + t * Dot(z, Times(p, z))
  {
    hide Dot, Times, Add, Scale, Symmetric;
    var x := Add(phi, Scale(t, z));
    dx, dz := Dot(x, Times(p, phi)), Dot(x, Times(p, z));
    TimesLinear(p, t, phi, z);
    DotLinear(x, t, Times(p, phi), Times(p, z));
    DotLeftLinear(phi, t, z, Times(p, phi));
    DotLeftLinear(phi, t, z, Times(p, z));
    DotTimesSymmetric(p, n, phi, z);
    DotSymmetric(Times(p, phi), z);
  }

  lemma {:induction false} PositiveForm(p: Matrix, n: nat, phi: Vector, t: real, z: Vector, q: real, mixed: real,
      zz: real)
    returns (dx: real, dz: real)
    requires IsSquare(p, n) && Symmetric(p, n) && PositiveSemidefinite(p, n) && |phi| == |z| == n
    requires q == Dot(phi, Times(p, phi)) && mixed == Dot(z, Times(p, phi)) && zz == Dot(z, Times(p, z))
    ensures dx == q + t * mixed && dz == mixed + t * zz
    ensures dx + t * dz >= 0.0 && zz >= 0.0
  {
    hide Dot, Times, Add, Scale, Symmetric;
    dx, dz := QuadraticForm(p, n, phi, t, z);
    var x := Add(phi, Scale(t, z));
    assert PositiveOn(p, n, x) && PositiveOn(p, n, z);
  }

  lemma {:induction false} CauchySchwarz(p: Matrix, n: nat, phi: Vector, z: Vector) returns (q: real, mixed: real,
      zz: real)
    requires IsSquare(p, n) && Symmetric(p, n) && PositiveSemidefinite(p, n) && |phi| == |z| == n
    ensures q == Dot(phi, Times(p, phi)) && mixed == Dot(z, Times(p, phi)) && zz == Dot(z, Times(p, z))
    ensures mixed * mixed <= q * zz && q >= 0.0 && zz >= 0.0
  {
    hide Dot, Times, Symmetric, BestStep;
    assert PositiveOn(p, n, phi);
    q, mixed, zz := Dot(phi, Times(p, phi)), Dot(z, Times(p, phi)), Dot(z, Times(p, z));
    var t := BestStep(q, mixed, zz);
    var dx, dz := PositiveForm(p, n, phi, t, z, q, mixed, zz);
    Discriminant(q, mixed, zz, t, dx, dz);
  }

  /** The multiple of `z` that exposes a violation of Cauchy-Schwarz, if there is one. */
  function BestStep(q: real, mixed: real, zz: real): real {
    if zz > 0.0 then -mixed / zz else if mixed != 0.0 then -(q + 1.0) / (2.0 * mixed) else 0.0
  }

  lemma {:induction false} Discriminant(q: real, mixed: real, zz: real, t: real, dx: real, dz: real)
    requires zz >= 0.0 && t == BestStep(q, mixed, zz)
    requires dx == q + t * mixed && dz == mixed + t * zz && dx + t * dz >= 0.0
    ensures mixed * mixed <= q * zz
  {
  }

  lemma {:induction false} ScaleUp(x: real, k: real)
    requires x >= 0.0 && k >= 0.0
    ensures x * k >= 0.0
  {
  }

  lemma {:induction false} FoldPositive(p: Matrix, n: nat, phi: Vector, forgetting: real)
    requires IsSquare(p, n) && Symmetric(p, n) && PositiveSemidefinite(p, n) && |phi| == n
    requires forgetting > 0.0
    ensures Denominator(forgetting, p, phi) >= forgetting
    ensures var s, d := Times(p, phi), Denominator(forgetting, p, phi);
      PositiveSemidefinite(NextCovariance(p, Divided(s, d), s, forgetting), n)
  {
    hide Dot, Times, Add, Scale, Symmetric, NextCovariance, Divided, Correction;
    var s, d := Times(p, phi), Denominator(forgetting, p, phi);
    assert PositiveOn(p, n, phi) && d >= forgetting;
    var next := NextCovariance(p, Divided(s, d), s, forgetting);
    forall z: Vector | |z| == n ensures PositiveOn(next, n, z) {
      NextTimes(p, s, d, forgetting, z);
      var q, mixed, zz := CauchySchwarz(p, n, phi, z);
      ShrunkForm(Times(p, z), s, z, d, forgetting, q, mixed, zz);
    }
  }

  lemma {:induction false} ShrunkForm(pz: Vector, s: Vector, z: Vector, d: real, forgetting: real, q: real,
      mixed: real, zz: real)
    requires |pz| == |s| == |z| && forgetting > 0.0 && d == forgetting + q && q >= 0.0
    requires zz == Dot(z, pz) && mixed == Dot(z, s) && zz >= 0.0 && mixed * mixed <= q * zz
    ensures Dot(z, Scale(1.0 / forgetting, Add(pz, Scale(Correction(s, z, d), s)))) >= 0.0
  {
    var a := Correction(s, z, d);
    DotScale(z, 1.0 / forgetting, Add(pz, Scale(a, s)));
    DotLinear(z, a, pz, s);
    DotSymmetric(s, z);
    ShrunkScalar(zz, mixed, a, d, forgetting, q);
  }

  lemma {:induction false} ShrunkScalar(zz: real, m: real, a: real, d: real, forgetting: real, q: real)
    requires forgetting > 0.0 && d == forgetting + q && q >= 0.0 && a == -m / d
    requires zz >= 0.0 && m * m <= q * zz
    ensures 1.0 / forgetting * (zz + a * m) >= 0.0
  {
  }

  // One fold, one cap, and whole runs.

  lemma {:induction false} Appended(h: seq<Event>, prior: real, forgetting: real, n: nat, event: Event, z: Vector)
    requires prior > 0.0 && |z| == n && GoodHistory(h, n) && GoodEvent(event, n)
    ensures GoodHistory(h + [event], n)
    ensures Information(h + [event], prior, forgetting, z)
         == GrownInformation(event, forgetting, Information(h, prior, forgetting, z), z)
    ensures Moment(h + [event], forgetting, n) == GrownMoment(event, forgetting, Moment(h, forgetting, n))
  {
  }

  lemma {:induction false} FoldInverseAt(h: seq<Event>, prior: real, forgetting: real, p: Matrix, n: nat,
      sample: Sample, z: Vector)
    requires IsSquare(p, n) && Symmetric(p, n) && prior > 0.0 && forgetting > 0.0
    requires GoodHistory(h, n) && GoodHistory(h + [Sampled(sample)], n)
    requires |z| == |sample.regressor| == n && Inverse(p, h, prior, forgetting, n)
    requires Denominator(forgetting, p, sample.regressor) != 0.0
    ensures var s, d := Times(p, sample.regressor), Denominator(forgetting, p, sample.regressor);
      var next := NextCovariance(p, Divided(s, d), s, forgetting);
      InverseOn(next, h + [Sampled(sample)], prior, forgetting, n, z)
  {
    var phi := sample.regressor;
    var s, d := Times(p, phi), Denominator(forgetting, p, phi);
    var next := NextCovariance(p, Divided(s, d), s, forgetting);
    Appended(h, prior, forgetting, n, Sampled(sample), z);
    Appended(h, prior, forgetting, n, Sampled(sample), Times(next, z));
    FoldLeftInverse(h, prior, forgetting, p, n, phi, z);
    FoldRightInverse(h, prior, forgetting, p, n, phi, z);
  }

  lemma {:induction false} FoldInverse(h: seq<Event>, prior: real, forgetting: real, p: Matrix, n: nat,
      sample: Sample)
    requires IsSquare(p, n) && Symmetric(p, n) && prior > 0.0 && forgetting > 0.0
    requires GoodHistory(h, n) && |sample.regressor| == n && Inverse(p, h, prior, forgetting, n)
    requires Denominator(forgetting, p, sample.regressor) != 0.0
    ensures GoodHistory(h + [Sampled(sample)], n)
    ensures var s, d := Times(p, sample.regressor), Denominator(forgetting, p, sample.regressor);
      Inverse(NextCovariance(p, Divided(s, d), s, forgetting), h + [Sampled(sample)], prior, forgetting, n)
  {
    var phi := sample.regressor;
    var s, d := Times(p, phi), Denominator(forgetting, p, phi);
    var next := NextCovariance(p, Divided(s, d), s, forgetting);
    Appended(h, prior, forgetting, n, Sampled(sample), Zeros(n));
    forall z: Vector | |z| == n
      ensures InverseOn(next, h + [Sampled(sample)], prior, forgetting, n, z)
    {
      FoldInverseAt(h, prior, forgetting, p, n, sample, z);
    }
  }

  lemma {:induction false} FoldNormalEquations(h: seq<Event>, prior: real, forgetting: real, p: Matrix, n: nat,
      theta: Vector, sample: Sample)
    requires IsSquare(p, n) && prior > 0.0 && forgetting > 0.0
    requires GoodHistory(h, n) && GoodHistory(h + [Sampled(sample)], n)
    requires |theta| == |sample.regressor| == n && Inverse(p, h, prior, forgetting, n)
    requires Information(h, prior, forgetting, theta) == Moment(h, forgetting, n)
    requires Denominator(forgetting, p, sample.regressor) != 0.0
    ensures var s, d := Times(p, sample.regressor), Denominator(forgetting, p, sample.regressor);
      var next := Add(theta, Scale(sample.output - Dot(sample.regressor, theta), Divided(s, d)));
      Information(h + [Sampled(sample)], prior, forgetting, next) == Moment(h + [Sampled(sample)], forgetting, n)
  {
    hide Dot, Times, Information, Moment, Divided, Combine, Denominator, GoodHistory, Inverse, Add, Scale;
    var phi := sample.regressor;
    var s, d := Times(p, phi), Denominator(forgetting, p, phi);
    var next := Add(theta, Scale(sample.output - Dot(phi, theta), Divided(s, d)));
    Appended(h, prior, forgetting, n, Sampled(sample), next);
    FoldSolves(h, prior, forgetting, p, n, theta, Moment(h, forgetting, n), phi, sample.output);
  }

  lemma {:induction false} FoldTracks(cfg: Settings, e: Estimate, h: seq<Event>, prior: real, sample: Sample)
    requires Tracks(cfg, e, h, prior) && |sample.regressor| == cfg.width
    ensures Denominator(cfg.forgetting, e.covariance, sample.regressor) >= cfg.forgetting
    ensures Tracks(cfg, Fold(cfg, e, sample), h + [Sampled(sample)], prior)
  {
    hide Dot, Times, NextCovariance, Divided, Symmetric, PositiveSemidefinite, Information, Moment, Inverse,
      Denominator, GoodHistory, Add, Scale;
    var n, p, k := cfg.width, e.covariance, cfg.forgetting;
    FoldPositive(p, n, sample.regressor, k);
    FoldSymmetric(p, n, Times(p, sample.regressor), Denominator(k, p, sample.regressor), k);
    FoldInverse(h, prior, k, p, n, sample);
    FoldNormalEquations(h, prior, k, p, n, e.parameters, sample);
  }

  lemma {:induction false} RescaleTimes(p: Matrix, f: real, z: Vector)
    requires forall i :: 0 <= i < |p| ==> |p[i]| == |z|
    ensures Times(Rescale(p, f), z) == Scale(f, Times(p, z))
  {
    hide Dot;
    forall i | 0 <= i < |p| ensures Times(Rescale(p, f), z)[i] == Scale(f, Times(p, z))[i] {
      DotSymmetric(Scale(f, p[i]), z);
      DotScale(z, f, p[i]);
      DotSymmetric(p[i], z);
      assert Times(Rescale(p, f), z)[i] == f * Times(p, z)[i];
    }
  }

  lemma {:induction false} ScaleBack(f: real, z: Vector)
    requires f != 0.0
    ensures Scale(f, Scale(1.0 / f, z)) == z && Scale(1.0 / f, Scale(f, z)) == z
  {
    forall i | 0 <= i < |z|
      ensures Scale(f, Scale(1.0 / f, z))[i] == z[i] && Scale(1.0 / f, Scale(f, z))[i] == z[i]
    {
      ScaleBackAt(f, z[i]);
    }
  }

  lemma {:induction false} ScaleBackAt(f: real, z: real)
    requires f != 0.0
    ensures f * (1.0 / f * z) == z && 1.0 / f * (f * z) == z
  {
  }

  lemma {:induction false} RescaleInverse(p: Matrix, h: seq<Event>, prior: real, k: real, n: nat, f: real, z: Vector)
    requires IsSquare(p, n) && prior > 0.0 && GoodHistory(h, n) && Inverse(p, h, prior, k, n) && |z| == n
    requires f > 0.0 && GoodHistory(h + [Rescaled(f)], n)
    ensures InverseOn(Rescale(p, f), h + [Rescaled(f)], prior, k, n, z)
  {
    hide Dot, Times, Add, Scale, Information, Moment, Rescale, GoodHistory, Inverse;
    var h', q := h + [Rescaled(f)], Rescale(p, f);
    var iz, pz := Information(h, prior, k, z), Times(p, z);
    InverseAt(h, prior, k, p, n, z);
    Appended(h, prior, k, n, Rescaled(f), z);
    Appended(h, prior, k, n, Rescaled(f), Times(q, z));
    assert Times(q, Information(h', prior, k, z)) == z by {
      RescaleTimes(p, f, Scale(1.0 / f, iz));
      TimesScale(p, 1.0 / f, iz);
      ScaleBack(f, z);
    }
    assert Information(h', prior, k, Times(q, z)) == z by {
      RescaleTimes(p, f, z);
      InformationScale(h, prior, k, f, pz);
      ScaleBack(f, z);
    }
  }

  lemma {:induction false} RescalePositive(p: Matrix, n: nat, f: real, z: Vector)
    requires IsSquare(p, n) && |z| == n && PositiveOn(p, n, z) && f > 0.0
    ensures PositiveOn(Rescale(p, f), n, z)
  {
    hide Dot, Times, Scale;
    RescaleTimes(p, f, z);
    DotScale(z, f, Times(p, z));
    ScaleUp(Dot(z, Times(p, z)), f);
  }

  lemma {:induction false} RescaleTracks(cfg: Settings, e: Estimate, h: seq<Event>, prior: real, f: real)
    requires Tracks(cfg, e, h, prior) && f > 0.0
    ensures Tracks(cfg, Estimate(e.parameters, Rescale(e.covariance, f)), h + [Rescaled(f)], prior)
  {
    hide Dot, Times, Add, Scale, Information, Moment, Symmetric, Rescale, GoodHistory, InverseOn, PositiveOn;
    var n, p, k := cfg.width, e.covariance, cfg.forgetting;
    RescaleSymmetric(p, n, f);
    Appended(h, prior, k, n, Rescaled(f), e.parameters);
    forall z: Vector | |z| == n
      ensures InverseOn(Rescale(p, f), h + [Rescaled(f)], prior, k, n, z)
      ensures PositiveOn(Rescale(p, f), n, z)
    {
      RescaleInverse(p, h, prior, k, n, f, z);
      assert PositiveOn(p, n, z);
      RescalePositive(p, n, f, z);
    }
  }

  lemma {:induction false} RescaleSymmetric(p: Matrix, n: nat, f: real)
    requires IsSquare(p, n) && Symmetric(p, n)
    ensures Symmetric(Rescale(p, f), n)
  {
  }

  lemma {:induction false} RescaleTrace(p: Matrix, f: real, k: nat)
    requires IsSquare(p, |p|) && k <= |p|
    ensures Trace(Rescale(p, f), k) == f * Trace(p, k)
  {
    if k > 0 {
      RescaleTrace(p, f, k - 1);
      assert f * Trace(p, k - 1) + f * p[k-1][k-1] == f * (Trace(p, k - 1) + p[k-1][k-1]);
    }
  }

  lemma {:induction false} CapTracks(cfg: Settings, e: Estimate, h: seq<Event>, prior: real)
    requires Tracks(cfg, e, h, prior)
    ensures var f := CapFactor(cfg.limit, e.covariance);
      0.0 < f <= 1.0 && Tracks(cfg, Capped(cfg, e), if f == 1.0 then h else h + [Rescaled(f)], prior)
    ensures Trace(Capped(cfg, e).covariance, cfg.width)
         == if Trace(e.covariance, cfg.width) > cfg.limit then cfg.limit else Trace(e.covariance, cfg.width)
  {
    hide Trace, Rescale, Symmetric, PositiveSemidefinite, Information, Moment, Inverse, GoodHistory;
    var total := Trace(e.covariance, cfg.width);
    if total > cfg.limit {
      var f := CapRatio(cfg.limit, total);
      RescaleTracks(cfg, e, h, prior, f);
      RescaleTrace(e.covariance, f, cfg.width);
    }
  }

  /** Where the cap fires it is the limit exactly, and the covariance keeps its shape: every entry is to the
      limit as it was to the trace. Where it does not, nothing is touched. */
  lemma {:induction false} CapKeepsShape(cfg: Settings, e: Estimate, i: nat, j: nat)
    requires cfg.Valid() && e.Fits(cfg.width) && i < cfg.width && j < cfg.width
    ensures var (total, capped) := (Trace(e.covariance, cfg.width), Capped(cfg, e));
      && capped.parameters == e.parameters
      && (total <= cfg.limit ==> capped == e)
      && (total > cfg.limit ==>
            && Trace(capped.covariance, cfg.width) == cfg.limit
            && capped.covariance[i][j] * total == cfg.limit * e.covariance[i][j])
  {
    hide Trace, Rescale, Scale;
    var total := Trace(e.covariance, cfg.width);
    if total > cfg.limit {
      var f := CapRatio(cfg.limit, total);
      RescaleTrace(e.covariance, f, cfg.width);
      RescaledEntry(e.covariance, f, i, j);
      ShapeKept(f, total, cfg.limit, e.covariance[i][j], Rescale(e.covariance, f)[i][j]);
    }
  }

  lemma {:induction false} RescaledEntry(p: Matrix, f: real, i: nat, j: nat)
    requires i < |p| && j < |p[i]|
    ensures Rescale(p, f)[i][j] == f * p[i][j]
  {
  }

  lemma {:induction false} ShapeKept(f: real, total: real, limit: real, entry: real, scaled: real)
    requires f * total == limit && scaled == f * entry
    ensures scaled * total == limit * entry
  {
    assert f * entry * total == (f * total) * entry;
  }

  lemma {:induction false} CapRatio(limit: real, total: real) returns (f: real)
    requires 0.0 < limit < total
    ensures f == limit / total && 0.0 < f < 1.0 && f * total == limit
  {
    f := limit / total;
    assert f * total == limit;
    if f <= 0.0 {
      ScaleUp(-f, total);
    } else if f >= 1.0 {
      ScaleUp(f - 1.0, total);
    }
  }

  lemma {:induction false} DiagonalTimes(n: nat, scale: real, z: Vector)
    requires |z| == n
    ensures Times(Diagonal(n, scale), z) == Scale(scale, z)
  {
    hide Dot, Scale, Mul, Diagonal;
    var d := Diagonal(n, scale);
    forall i | 0 <= i < n ensures Times(d, z)[i] == Scale(scale, z)[i] {
      DiagonalRow(n, scale, i);
      DotSymmetric(Scale(scale, Unit(n, i)), z);
      DotScaled(z, scale, Unit(n, i));
      DotUnit(z, i);
      ScaledEntry(scale, z, i);
    }
  }

  lemma {:induction false} ScaledEntry(k: real, v: Vector, i: nat)
    requires i < |v|
    ensures Scale(k, v)[i] == Mul(k, v[i])
  {
  }

  lemma {:induction false} DiagonalRow(n: nat, scale: real, i: nat)
    requires i < n
    ensures Diagonal(n, scale)[i] == Scale(scale, Unit(n, i))
  {
  }

  lemma {:induction false} StartAt(cfg: Settings, prior: real, z: Vector)
    requires prior > 0.0 && |z| == cfg.width && GoodHistory([], cfg.width)
    ensures InverseOn(Diagonal(cfg.width, prior), [], prior, cfg.forgetting, cfg.width, z)
    ensures PositiveOn(Diagonal(cfg.width, prior), cfg.width, z)
  {
    DiagonalTimes(cfg.width, prior, z);
    DiagonalTimes(cfg.width, prior, Scale(1.0 / prior, z));
    ScaleBack(prior, z);
    DotScale(z, prior, z);
    DotSelf(z);
    ScaleUp(Dot(z, z), prior);
  }

  lemma {:induction false} StartTracks(cfg: Settings, prior: real)
    requires cfg.Valid() && prior > 0.0
    ensures Tracks(cfg, Start(cfg.width, prior), [], prior)
  {
    hide Dot, Times, InverseOn, PositiveOn;
    var n, p := cfg.width, Diagonal(cfg.width, prior);
    assert GoodHistory([], n);
    forall z: Vector | |z| == n
      ensures InverseOn(p, [], prior, cfg.forgetting, n, z) && PositiveOn(p, n, z)
    {
      StartAt(cfg, prior, z);
    }
    assert Scale(1.0 / prior, Zeros(n)) == Zeros(n);
  }

  /** One update and what it adds to the history: the sample, and the cap's factor if it fired. */
  ghost function Next(cfg: Settings, e: Estimate, s: Sample): (next: (Estimate, seq<Event>))
    requires Usable(cfg, e, s.regressor)
    ensures next.0.Fits(cfg.width)
  {
    var folded := Fold(cfg, e, s);
    var f := CapFactor(cfg.limit, folded.covariance);
    (Capped(cfg, folded), if f == 1.0 then [Sampled(s)] else [Sampled(s), Rescaled(f)])
  }

  lemma {:induction false} TracksFits(cfg: Settings, e: Estimate, h: seq<Event>, prior: real)
    requires Tracks(cfg, e, h, prior)
    ensures cfg.Valid() && e.Fits(cfg.width) && GoodHistory(h, cfg.width)
  {
  }

  lemma {:induction false} NextTracks(cfg: Settings, e: Estimate, h: seq<Event>, prior: real, s: Sample)
    requires Tracks(cfg, e, h, prior) && |s.regressor| == cfg.width
    ensures Usable(cfg, e, s.regressor)
    ensures Denominator(cfg.forgetting, e.covariance, s.regressor) >= cfg.forgetting > 0.0
    ensures var next := Next(cfg, e, s);
      Tracks(cfg, next.0, h + next.1, prior) && Trace(next.0.covariance, cfg.width) <= cfg.limit
  {
    hide Tracks, Fold, Capped, Denominator, CapFactor, GoodHistory, Trace;
    TracksFits(cfg, e, h, prior);
    FoldTracks(cfg, e, h, prior, s);
    var folded, h' := Fold(cfg, e, s), h + [Sampled(s)];
    CapTracks(cfg, folded, h', prior);
    var f := CapFactor(cfg.limit, folded.covariance);
    assert h' + [Rescaled(f)] == h + [Sampled(s), Rescaled(f)];
  }

  ghost function Extended(cfg: Settings, e: Estimate, h: seq<Event>, prior: real, s: Sample):
      (r: (Estimate, seq<Event>))
    requires Tracks(cfg, e, h, prior) && |s.regressor| == cfg.width
    ensures Tracks(cfg, r.0, r.1, prior)
  {
    NextTracks(cfg, e, h, prior, s);
    var next := Next(cfg, e, s);
    assert Tracks(cfg, next.0, h + next.1, prior);
    (next.0, h + next.1)
  }

  /** A whole run from the constructor: the estimate, and the history it stands for. */
  ghost function Run(cfg: Settings, prior: real, samples: seq<Sample>): (r: (Estimate, seq<Event>))
    requires cfg.Valid() && prior > 0.0
    requires Fitting(samples, cfg.width)
    ensures Tracks(cfg, r.0, r.1, prior) && r.0.Fits(cfg.width)
  {
    hide Tracks, Extended, Start;
    if samples == [] then
      StartTracks(cfg, prior);
      TracksFits(cfg, Start(cfg.width, prior), [], prior);
      (Start(cfg.width, prior), [])
    else
      var (e, h) := Run(cfg, prior, samples[..|samples|-1]);
      var r := Extended(cfg, e, h, prior, samples[|samples|-1]);
      TracksFits(cfg, r.0, r.1, prior);
      r
  }

  lemma {:induction false} RunCapped(cfg: Settings, prior: real, samples: seq<Sample>)
    requires cfg.Valid() && prior > 0.0 && Fitting(samples, cfg.width) && samples != []
    ensures Trace(Run(cfg, prior, samples).0.covariance, cfg.width) <= cfg.limit
  {
    hide Tracks, Trace, Next;
    var (e, h) := Run(cfg, prior, samples[..|samples|-1]);
    NextTracks(cfg, e, h, prior, samples[|samples|-1]);
  }

  // The batch fit.

  /** Cost is a paraboloid: its slope is the residual of the normal equations, its bend the information. */
  lemma {:induction false} CostShift(h: seq<Event>, prior: real, forgetting: real, x: Vector, z: Vector)
    requires prior > 0.0 && |x| == |z| && GoodHistory(h, |x|)
    ensures Cost(h, prior, forgetting, Add(x, z)) == Cost(h, prior, forgetting, x)
      + Twice(Dot(z, Information(h, prior, forgetting, x)) - Dot(z, Moment(h, forgetting, |x|)))
      + Dot(z, Information(h, prior, forgetting, z))
  {
    if h == [] {
      CostStart(prior, x, z);
    } else {
      var g := h[..|h|-1];
      CostShift(g, prior, forgetting, x, z);
      CostStep(h[|h|-1], forgetting, x, z,
               Information(g, prior, forgetting, x), Information(g, prior, forgetting, z), Moment(g, forgetting, |x|),
               Cost(g, prior, forgetting, x), Cost(g, prior, forgetting, Add(x, z)));
    }
  }

  lemma {:induction false} CostStart(prior: real, x: Vector, z: Vector)
    requires prior > 0.0 && |x| == |z|
    ensures Over(Dot(Add(x, z), Add(x, z)), prior) == Over(Dot(x, x), prior)
      + Twice(Dot(z, Scale(Over(1.0, prior), x)) - Dot(z, Zeros(|x|))) + Dot(z, Scale(Over(1.0, prior), z))
  {
    var xz := Add(x, z);
    DotAdd(xz, x, z);
    DotSymmetric(xz, x);
    DotSymmetric(xz, z);
    DotAdd(x, x, z);
    DotAdd(z, x, z);
    DotSymmetric(x, z);
    DotZeros(z);
    DotScaled(z, Over(1.0, prior), x);
    DotScaled(z, Over(1.0, prior), z);
    StartCost(prior, Dot(xz, xz), Dot(x, x), Dot(z, x), Dot(z, z));
  }

  lemma {:induction false} StartCost(prior: real, total: real, xx: real, mixed: real, zz: real)
    requires prior > 0.0 && total == xx + Twice(mixed) + zz
    ensures Over(total, prior)
         == Over(xx, prior) + Twice(Mul(Over(1.0, prior), mixed) - 0.0) + Mul(Over(1.0, prior), zz)
  {
  }

  lemma {:induction false} DotScaled(z: Vector, k: real, v: Vector)
    requires |z| == |v|
    ensures Dot(z, Scale(k, v)) == Mul(k, Dot(z, v))
  {
    DotScale(z, k, v);
  }

  lemma {:induction false} DotCombined(z: Vector, k: real, v: Vector, a: real, w: Vector)
    requires |z| == |v| == |w|
    ensures Dot(z, Combine(k, v, a, w)) == Mul(k, Dot(z, v)) + Mul(a, Dot(z, w))
  {
    DotLinear(z, a, Scale(k, v), w);
    DotScale(z, k, v);
  }

  lemma {:induction false} CostStep(event: Event, forgetting: real, x: Vector, z: Vector, ix: Vector, iz: Vector,
      b: Vector, cx: real, cxz: real)
    requires |x| == |z| == |ix| == |iz| == |b| && GoodEvent(event, |x|)
    requires cxz == cx + Twice(Dot(z, ix) - Dot(z, b)) + Dot(z, iz)
    ensures GrownCost(event, forgetting, cxz, Add(x, z)) == GrownCost(event, forgetting, cx, x)
      + Twice(Dot(z, GrownInformation(event, forgetting, ix, x)) - Dot(z, GrownMoment(event, forgetting, b)))
      + Dot(z, GrownInformation(event, forgetting, iz, z))
  {
    match event {
      case Rescaled(f) => CostRescaled(f, z, ix, iz, b, cx, cxz);
      case Sampled(s) => CostSampled(s, forgetting, x, z, ix, iz, b, cx, cxz);
    }
  }

  lemma {:induction false} CostRescaled(f: real, z: Vector, ix: Vector, iz: Vector, b: Vector, cx: real, cxz: real)
    requires |z| == |ix| == |iz| == |b| && f > 0.0
    requires cxz == cx + Twice(Dot(z, ix) - Dot(z, b)) + Dot(z, iz)
    ensures Over(cxz, f) == Over(cx, f)
      + Twice(Dot(z, Scale(Over(1.0, f), ix)) - Dot(z, Scale(Over(1.0, f), b))) + Dot(z, Scale(Over(1.0, f), iz))
  {
    DotScaled(z, Over(1.0, f), ix);
    DotScaled(z, Over(1.0, f), iz);
    DotScaled(z, Over(1.0, f), b);
    ScaledCost(f, cxz, cx, Dot(z, ix), Dot(z, b), Dot(z, iz));
  }

  lemma {:induction false} CostSampled(s: Sample, k: real, x: Vector, z: Vector, ix: Vector, iz: Vector, b: Vector,
      cx: real, cxz: real)
    requires |x| == |z| == |ix| == |iz| == |b| == |s.regressor|
    requires cxz == cx + Twice(Dot(z, ix) - Dot(z, b)) + Dot(z, iz)
    ensures Mul(k, cxz) + Squared(s.output - Dot(s.regressor, Add(x, z)))
      == Mul(k, cx) + Squared(s.output - Dot(s.regressor, x))
        + Twice(Dot(z, Combine(k, ix, Dot(s.regressor, x), s.regressor)) - Dot(z, Combine(k, b, s.output, s.regressor)))
        + Dot(z, Combine(k, iz, Dot(s.regressor, z), s.regressor))
  {
    var phi := s.regressor;
    var w, predicted := Dot(phi, z), Dot(phi, x);
    DotSymmetric(z, phi);
    DotAdd(phi, x, z);
    DotCombined(z, k, ix, predicted, phi);
    DotCombined(z, k, b, s.output, phi);
    DotCombined(z, k, iz, w, phi);
    SampledCost(k, cxz, cx, Dot(z, ix), Dot(z, b), Dot(z, iz), s.output, predicted, w, Dot(phi, Add(x, z)),
      Dot(z, Combine(k, ix, predicted, phi)), Dot(z, Combine(k, b, s.output, phi)), Dot(z, Combine(k, iz, w, phi)));
  }

  lemma {:induction false} ScaledCost(f: real, cxz: real, cx: real, dx: real, db: real, dz: real)
    requires f > 0.0 && cxz == cx + Twice(dx - db) + dz
    ensures Over(cxz, f) == Over(cx, f)
      + Twice(Mul(Over(1.0, f), dx) - Mul(Over(1.0, f), db)) + Mul(Over(1.0, f), dz)
  {
  }

  lemma {:induction false} SampledCost(k: real, cxz: real, cx: real, dx: real, db: real, dz: real, y: real,
      predicted: real, w: real,
                    shifted: real, gx: real, gb: real, gz: real)
    requires cxz == cx + Twice(dx - db) + dz && shifted == predicted + w
    requires gx == Mul(k, dx) + Mul(predicted, w) && gb == Mul(k, db) + Mul(y, w) && gz == Mul(k, dz) + Mul(w, w)
    ensures Mul(k, cxz) + Squared(y - shifted) == Mul(k, cx) + Squared(y - predicted) + Twice(gx - gb) + gz
  {
  }

  lemma {:induction false} InformationDefinite(h: seq<Event>, prior: real, forgetting: real, z: Vector)
    requires prior > 0.0 && forgetting > 0.0 && GoodHistory(h, |z|)
    ensures Dot(z, Information(h, prior, forgetting, z)) >= 0.0
    ensures z != Zeros(|z|) ==> Dot(z, Information(h, prior, forgetting, z)) > 0.0
  {
    hide Dot, Combine, Scale, Over, Mul;
    if h == [] {
      DotSelf(z);
      DotScaled(z, Over(1.0, prior), z);
      ShareSign(prior, Dot(z, z));
    } else {
      var g := h[..|h|-1];
      InformationDefinite(g, prior, forgetting, z);
      var iz := Information(g, prior, forgetting, z);
      match h[|h|-1] {
        case Rescaled(f) =>
          DotScaled(z, Over(1.0, f), iz);
          ShareSign(f, Dot(z, iz));
        case Sampled(s) =>
          DotCombined(z, forgetting, iz, Dot(s.regressor, z), s.regressor);
          DotSymmetric(z, s.regressor);
          GrownSign(forgetting, Dot(z, iz), Dot(s.regressor, z));
      }
    }
  }

  lemma {:induction false} ShareSign(f: real, x: real)
    requires f > 0.0 && x >= 0.0
    ensures Mul(Over(1.0, f), x) >= 0.0
    ensures x > 0.0 ==> Mul(Over(1.0, f), x) > 0.0
  {
  }

  lemma {:induction false} GrownSign(k: real, x: real, w: real)
    requires k > 0.0 && x >= 0.0
    ensures Mul(k, x) + Mul(w, w) >= 0.0
    ensures x > 0.0 ==> Mul(k, x) + Mul(w, w) > 0.0
  {
  }

  /** The recursive form is the batch fit. After any run whatever -- any width, any samples, the
      cap firing or not -- the parameters are the one minimiser of the weighted squared error. */
  lemma {:induction false} RecursiveIsBatchFit(cfg: Settings, prior: real, samples: seq<Sample>, x: Vector)
    requires cfg.Valid() && prior > 0.0 && |x| == cfg.width
    requires Fitting(samples, cfg.width)
    ensures var (e, h) := Run(cfg, prior, samples);
      && e.Fits(cfg.width) && GoodHistory(h, cfg.width)
      && Cost(h, prior, cfg.forgetting, e.parameters) <= Cost(h, prior, cfg.forgetting, x)
      && (Cost(h, prior, cfg.forgetting, x) == Cost(h, prior, cfg.forgetting, e.parameters) ==> x == e.parameters)
  {
    hide Run, Cost, Information, Moment, Dot, Add, Scale;
    var (e, h) := Run(cfg, prior, samples);
    Minimises(h, prior, cfg.forgetting, e.parameters, x);
  }

  lemma {:induction false} Minimises(h: seq<Event>, prior: real, forgetting: real, best: Vector, x: Vector)
    requires prior > 0.0 && forgetting > 0.0 && |x| == |best| && GoodHistory(h, |x|)
    requires Information(h, prior, forgetting, best) == Moment(h, forgetting, |best|)
    ensures Cost(h, prior, forgetting, best) <= Cost(h, prior, forgetting, x)
    ensures Cost(h, prior, forgetting, x) == Cost(h, prior, forgetting, best) ==> x == best
  {
    hide Cost, Information, Moment, Dot;
    var z := Add(x, Scale(-1.0, best));
    forall i | 0 <= i < |x| ensures Add(best, z)[i] == x[i] {
      assert z[i] == x[i] - best[i];
    }
    assert Add(best, z) == x;
    CostShift(h, prior, forgetting, best, z);
    InformationDefinite(h, prior, forgetting, z);
    if z == Zeros(|z|) {
      forall i | 0 <= i < |x| ensures x[i] == best[i] {
        assert z[i] == 0.0 && Add(best, z)[i] == best[i] + z[i];
      }
    }
  }

  /** No update divides by zero, and each leaves the covariance symmetric, positive semidefinite and
      within its limit. */
  lemma {:induction false} CovarianceStaysSound(cfg: Settings, prior: real, samples: seq<Sample>, s: Sample)
    requires cfg.Valid() && prior > 0.0 && |s.regressor| == cfg.width
    requires Fitting(samples, cfg.width)
    ensures var p := Run(cfg, prior, samples).0.covariance;
      && Symmetric(p, cfg.width) && PositiveSemidefinite(p, cfg.width)
      && Denominator(cfg.forgetting, p, s.regressor) >= cfg.forgetting
      && (samples != [] ==> Trace(p, cfg.width) <= cfg.limit)
  {
    hide Run, Denominator, Symmetric, PositiveSemidefinite, Inverse, Information, Moment, GoodHistory, Trace, Next;
    NextTracks(cfg, Run(cfg, prior, samples).0, Run(cfg, prior, samples).1, prior, s);
    if samples != [] { RunCapped(cfg, prior, samples); }
  }

  ghost function Power(base: real, n: nat): real {
    if n == 0 then 1.0 else Mul(base, Power(base, n - 1))
  }

  function AsHistory(samples: seq<Sample>): (h: seq<Event>)
    ensures |h| == |samples| && forall i :: 0 <= i < |h| ==> h[i] == Sampled(samples[i])
  {
    seq(|samples|, i requires 0 <= i < |samples| => Sampled(samples[i]))
  }

  ghost function WeightedMisses(samples: seq<Sample>, forgetting: real, x: Vector, k: nat): real
    requires k <= |samples| && Fitting(samples, |x|)
  {
    if k == 0 then 0.0 else
      var s := samples[k-1];
      WeightedMisses(samples, forgetting, x, k - 1) + Mul(Power(forgetting, |samples| - k), Squared(s.output - Dot(s.regressor, x)))
  }

  /** With no cap in the history, what is minimised is the exponentially weighted sum of squared
      misses: a sample `j` updates old weighs `forgetting` to the power `j`. */
  lemma {:induction false} UncappedCost(samples: seq<Sample>, prior: real, forgetting: real, x: Vector)
    requires prior > 0.0 && Fitting(samples, |x|)
    ensures var h := AsHistory(samples);
      GoodHistory(h, |x|) && Cost(h, prior, forgetting, x)
        == Mul(Power(forgetting, |samples|), Over(Dot(x, x), prior)) + WeightedMisses(samples, forgetting, x, |samples|)
  {
    var n := |samples|;
    var h := AsHistory(samples);
    if n > 0 {
      var fewer := samples[..n-1];
      UncappedCost(fewer, prior, forgetting, x);
      assert h[..n-1] == AsHistory(fewer);
      Discounted(samples, forgetting, x, n - 1);
      var a, b := Over(Dot(x, x), prior), WeightedMisses(fewer, forgetting, x, n - 1);
      DiscountSum(forgetting, Power(forgetting, n - 1), a, b);
      assert Power(forgetting, 0) == 1.0;
    }
  }

  lemma {:induction false} DiscountSum(k: real, p: real, a: real, b: real)
    ensures Mul(k, Mul(p, a) + b) == Mul(Mul(k, p), a) + Mul(k, b)
    ensures Mul(1.0, b) == b
  {
  }

  lemma {:induction false} Discounted(samples: seq<Sample>, forgetting: real, x: Vector, k: nat)
    requires k < |samples| && Fitting(samples, |x|)
    ensures WeightedMisses(samples, forgetting, x, k)
         == Mul(forgetting, WeightedMisses(samples[..|samples|-1], forgetting, x, k))
  {
    if k > 0 {
      var n := |samples|;
      Discounted(samples, forgetting, x, k - 1);
      var miss := Squared(samples[k-1].output - Dot(samples[k-1].regressor, x));
      DiscountSum(forgetting, Power(forgetting, n - 1 - k), miss, WeightedMisses(samples[..n-1], forgetting, x, k - 1));
    }
  }

  lemma {:induction false} ExtendedHistory(cfg: Settings, e: Estimate, h: seq<Event>, prior: real, s: Sample)
    requires Tracks(cfg, e, h, prior) && |s.regressor| == cfg.width
    ensures var events := Extended(cfg, e, h, prior, s).1;
      events == h + [Sampled(s)] || exists ev :: ev in events && ev.Rescaled?
  {
    hide Tracks, Denominator, Trace, Fold, CapFactor, Capped;
    NextTracks(cfg, e, h, prior, s);
    var events := Next(cfg, e, s).1;
    assert Extended(cfg, e, h, prior, s).1 == h + events;
    assert |events| == 1 || (h + events)[|h| + 1].Rescaled?;
  }

  /** A run that never passes the cap has exactly its samples as history. */
  lemma {:induction false} UncappedHistory(cfg: Settings, prior: real, samples: seq<Sample>)
    requires cfg.Valid() && prior > 0.0
    requires Fitting(samples, cfg.width)
    requires forall ev :: ev in Run(cfg, prior, samples).1 ==> ev.Sampled?
    ensures Run(cfg, prior, samples).1 == AsHistory(samples)
  {
    hide Tracks, Extended, Trace;
    var n := |samples|;
    if n > 0 {
      var (e, h) := Run(cfg, prior, samples[..n-1]);
      ExtendedHistory(cfg, e, h, prior, samples[n-1]);
      var all := Run(cfg, prior, samples).1;
      assert all == h + [Sampled(samples[n-1])];
      assert forall ev :: ev in h ==> ev in all;
      UncappedHistory(cfg, prior, samples[..n-1]);
    }
  }

  lemma {:induction false} RunAppended(cfg: Settings, prior: real, samples: seq<Sample>, s: Sample)
    requires cfg.Valid() && prior > 0.0 && Fitting(samples, cfg.width) && |s.regressor| == cfg.width
    ensures Usable(cfg, Run(cfg, prior, samples).0, s.regressor) && Fitting(samples + [s], cfg.width)
    ensures Run(cfg, prior, samples + [s]).0 == Next(cfg, Run(cfg, prior, samples).0, s).0
  {
    hide Tracks, Next, Trace, Denominator;
    var (e, h) := Run(cfg, prior, samples);
    NextTracks(cfg, e, h, prior, s);
    assert (samples + [s])[..|samples|] == samples;
  }

  // Confidence: the code's figure rises, not falls, as the covariance shrinks.

  function Confidence(total: real): real {
    if total <= 0.0 then 0.0 else 1.0 / (1.0 + total)
  }

  /** A smaller trace has less confidence only where the trace is no longer positive. */
  lemma {:induction false} FallsOnlyToNothing(before: real, after: real)
    requires after < before
    ensures Confidence(after) < Confidence(before) <==> after <= 0.0 < before
  {
    if 0.0 < after {
      Reciprocals(1.0 + after, 1.0 + before);
    } else if 0.0 < before {
      ReciprocalPositive(1.0 + before);
    }
  }

  lemma {:induction false} ReciprocalPositive(x: real)
    requires x > 0.0
    ensures 1.0 / x > 0.0
  {
  }

  lemma {:induction false} Reciprocals(x: real, y: real)
    requires 0.0 < x < y
    ensures 1.0 / y < 1.0 / x
  {
    ReciprocalPositive(x);
    ReciprocalPositive(y);
    var step := PositiveProduct(1.0 / x, y - x);
    var gap := PositiveProduct(1.0 / y, step);
    ReciprocalGap(x, y);
  }

  lemma {:induction false} ReciprocalGap(x: real, y: real)
    requires x != 0.0 && y != 0.0
    ensures 1.0 / y * (1.0 / x * (y - x)) == 1.0 / x - 1.0 / y
  {
    assert 1.0 / x * x == 1.0 && 1.0 / y * y == 1.0;
    assert 1.0 / x * (y - x) == 1.0 / x * y - 1.0;
  }

  /** An inverse of a positive definite map is positive definite: the covariance never loses a direction. */
  lemma {:induction false} CovarianceDefinite(cfg: Settings, e: Estimate, h: seq<Event>, prior: real, z: Vector)
    requires Tracks(cfg, e, h, prior) && |z| == cfg.width && z != Zeros(|z|)
    ensures Dot(z, Times(e.covariance, z)) > 0.0
  {
    hide Dot, Times, Information, Moment, Symmetric, PositiveSemidefinite, GoodHistory;
    var p, n := e.covariance, cfg.width;
    var w := Times(p, z);
    InverseAt(h, prior, cfg.forgetting, p, n, z);
    if w == Zeros(n) { InformationZeros(h, prior, cfg.forgetting, n); }
    InformationDefinite(h, prior, cfg.forgetting, w);
    DotSymmetric(w, z);
  }

  lemma {:induction false} TracePositive(cfg: Settings, e: Estimate, h: seq<Event>, prior: real, k: nat)
    requires Tracks(cfg, e, h, prior) && k <= cfg.width
    ensures Trace(e.covariance, k) >= 0.0 && (k > 0 ==> Trace(e.covariance, k) > 0.0)
  {
    hide Tracks, Dot, Times;
    TracksFits(cfg, e, h, prior);
    if k > 0 {
      TracePositive(cfg, e, h, prior, k - 1);
      var z := Unit(cfg.width, k - 1);
      assert z[k-1] == 1.0;
      CovarianceDefinite(cfg, e, h, prior, z);
      UnitForm(e.covariance, cfg.width, k - 1);
    }
  }

  lemma {:induction false} UnitForm(p: Matrix, n: nat, i: nat)
    requires IsSquare(p, n) && i < n
    ensures Dot(Unit(n, i), Times(p, Unit(n, i))) == p[i][i]
  {
    hide Dot, Unit;
    DotSymmetric(Unit(n, i), Times(p, Unit(n, i)));
    DotUnit(Times(p, Unit(n, i)), i);
    DotUnit(p[i], i);
  }

  ghost function TraceAfter(cfg: Settings, prior: real, samples: seq<Sample>): real
    requires cfg.Valid() && prior > 0.0 && Fitting(samples, cfg.width)
  {
    Trace(Run(cfg, prior, samples).0.covariance, cfg.width)
  }

  lemma {:induction false} RunTrace(cfg: Settings, prior: real, samples: seq<Sample>)
    requires cfg.Valid() && prior > 0.0 && Fitting(samples, cfg.width)
    ensures var total := TraceAfter(cfg, prior, samples);
      if cfg.width == 0 then total == 0.0 else total > 0.0
  {
    hide Run, Tracks, Trace, Fitting;
    var (e, h) := Run(cfg, prior, samples);
    TracksFits(cfg, e, h, prior);
    TracePositive(cfg, e, h, prior, cfg.width);
    if cfg.width == 0 { TraceNone(e.covariance); }
  }

  lemma {:induction false} FittingMore(samples: seq<Sample>, s: Sample, n: nat)
    requires Fitting(samples, n) && |s.regressor| == n
    ensures Fitting(samples + [s], n)
  {
  }

  /** So at no time in any run does `confidence` do what it says. With a parameter to learn it is never
      zero, and one more sample raises it exactly when it shrinks the trace; with none it stays zero. */
  lemma {:induction false} ConfidenceRises(cfg: Settings, prior: real, samples: seq<Sample>, s: Sample)
    requires cfg.Valid() && prior > 0.0 && |s.regressor| == cfg.width && Fitting(samples, cfg.width)
    ensures Fitting(samples + [s], cfg.width)
    ensures var before, after := TraceAfter(cfg, prior, samples), TraceAfter(cfg, prior, samples + [s]);
      && (Confidence(before) == 0.0 <==> cfg.width == 0)
      && (after < before <==> Confidence(before) < Confidence(after))
  {
    hide TraceAfter, Confidence, Fitting;
    FittingMore(samples, s, cfg.width);
    RunTrace(cfg, prior, samples);
    RunTrace(cfg, prior, samples + [s]);
    ConfidenceOrder(TraceAfter(cfg, prior, samples), TraceAfter(cfg, prior, samples + [s]), cfg.width);
  }

  lemma {:induction false} TraceNone(p: Matrix)
    requires IsSquare(p, 0)
    ensures Trace(p, 0) == 0.0
  {
  }

  lemma {:induction false} ConfidenceOrder(before: real, after: real, n: nat)
    requires if n == 0 then before == after == 0.0 else before > 0.0 && after > 0.0
    ensures Confidence(before) == 0.0 <==> n == 0
    ensures after < before <==> Confidence(before) < Confidence(after)
  {
    if n > 0 {
      ReciprocalPositive(1.0 + before);
      if after < before {
        Reciprocals(1.0 + after, 1.0 + before);
      } else if before < after {
        Reciprocals(1.0 + before, 1.0 + after);
      }
    }
  }

  /** One sample, one parameter: the trace falls from 1 to 1/2 and the confidence rises from 1/2 to 2/3. */
  lemma {:induction false} OneSampleRaisesConfidence()
    ensures var cfg, samples := Settings(1, 1.0, 10.0), [Sample([1.0], 0.0)];
      && cfg.Valid() && Fitting(samples, 1)
      && TraceAfter(cfg, 1.0, []) == 1.0 && TraceAfter(cfg, 1.0, samples) == 0.5
      && Confidence(1.0) < Confidence(0.5)
  {
    hide Tracks;
    var cfg, s := Settings(1, 1.0, 10.0), Sample([1.0], 0.0);
    var e := Start(1, 1.0);
    StartTracks(cfg, 1.0);
    NextTracks(cfg, e, [], 1.0, s);
    OneFold(cfg, e, s);
    assert Run(cfg, 1.0, []).0 == e;
    assert [s][..0] == [];
    assert Run(cfg, 1.0, [s]).0 == Next(cfg, e, s).0;
  }

  lemma {:induction false} OneFold(cfg: Settings, e: Estimate, s: Sample)
    requires cfg == Settings(1, 1.0, 10.0) && e == Start(1, 1.0) && s == Sample([1.0], 0.0)
    ensures Usable(cfg, e, s.regressor)
    ensures Trace(e.covariance, 1) == 1.0 && Trace(Next(cfg, e, s).0.covariance, 1) == 0.5
  {
    var p, phi := e.covariance, s.regressor;
    assert p[0] == [1.0];
    assert p == [p[0]];
    assert Dot(phi, phi) == 1.0 by { assert phi[..0] == []; }
    assert Times(p, phi) == [1.0];
    assert Denominator(1.0, p, phi) == 2.0;
    assert Divided([1.0], 2.0) == [0.5];
    assert NextRow([1.0], 0.5, [1.0], 1.0) == [0.5];
    assert NextCovariance(p, [0.5], [1.0], 1.0) == [[0.5]];
    assert Trace([[0.5]], 1) == 0.5;
  }

  // The estimator itself.

  /** `before` with its rows up to `row`, and that row up to `column`, already replaced by `target`'s. */
  ghost function Partly(target: Matrix, before: Matrix, row: nat, column: nat): Matrix
    requires IsSquare(target, |before|) && IsSquare(before, |before|) && row < |before| && column <= |before|
  {
    target[..row] + [target[row][..column] + before[row][column..]] + before[row+1..]
  }

  lemma {:induction false} NextCell(p: Matrix, gain: Vector, scaled: Vector, forgetting: real, row: nat, column: nat,
      value: real)
    requires IsSquare(p, |scaled|) && |gain| == |scaled| && forgetting != 0.0 && row < |p| && column < |p|
    requires value == p[row][column]
    ensures NextCovariance(p, gain, scaled, forgetting)[row][column] == NextEntry(value, gain[row], scaled[column], forgetting)
  {
  }

  function NextEntry(cell: real, gain: real, scaled: real, forgetting: real): real
    requires forgetting != 0.0
  {
    (cell - gain * scaled) / forgetting
  }

  lemma {:induction false} RescaledCell(p: Matrix, factor: real, row: nat, column: nat, value: real)
    requires row < |p| && column < |p[row]| && value == p[row][column]
    ensures Rescale(p, factor)[row][column] == value * factor
  {
  }

  lemma {:induction false} PartlyEdges(target: Matrix, before: Matrix, row: nat)
    requires IsSquare(target, |before|) && IsSquare(before, |before|) && row < |before|
    ensures Partly(target, before, row, 0) == target[..row] + before[row..]
    ensures Partly(target, before, row, |before|) == target[..row+1] + before[row+1..]
  {
    assert target[row][..0] + before[row][0..] == before[row];
    assert target[row][..|before|] + before[row][|before|..] == target[row];
  }

  lemma {:induction false} PartlyStep(target: Matrix, before: Matrix, row: nat, column: nat)
    requires IsSquare(target, |before|) && IsSquare(before, |before|) && row < |before| && column < |before|
    ensures var m := Partly(target, before, row, column);
      |m| == |before| && |m[row]| == |before|
      && m[row][column] == before[row][column]
      && m[row := m[row][column := target[row][column]]] == Partly(target, before, row, column + 1)
  {
    var m := Partly(target, before, row, column);
    assert m[row] == target[row][..column] + before[row][column..];
    assert m[row][column := target[row][column]] == target[row][..column + 1] + before[row][column + 1..];
  }

  class RecursiveLeastSquares {
    const cfg: Settings
    var parameters: Vector
    var covariance: Matrix

    ghost predicate Valid()
      reads this
    {
      cfg.Valid() && State().Fits(cfg.width)
    }

    ghost function State(): Estimate
      reads this
    {
      Estimate(parameters, covariance)
    }

    constructor (width: nat, forgetting: real, initial: real, limit: real)
      requires 0.0 < forgetting <= 1.0 && initial > 0.0 && limit > 0.0
      ensures Valid() && cfg == Settings(width, forgetting, limit)
      ensures State() == Start(width, initial)
    {
      cfg := Settings(width, forgetting, limit);
      parameters := Zeros(width);
      covariance := Diagonal(width, initial);
    }

    method Reset(initial: real)
      requires Valid() && initial > 0.0
      modifies this
      ensures Valid() && State() == Start(cfg.width, initial)
    {
      parameters := Zeros(cfg.width);
      covariance := Diagonal(cfg.width, initial);
    }

    /** Folds one sample in, and reports the prediction error before the update. */
    method Update(regressor: Vector, output: real) returns (outcome: Outcome)
      requires Valid()
      modifies this
      ensures Valid()
      ensures outcome.RegressorMismatch? <==> |regressor| != cfg.width
      ensures outcome.DivisionByZero? <==>
        |regressor| == cfg.width && !Usable(cfg, old(State()), regressor)
      ensures outcome.Residual? ==>
        && outcome.value == output - Dot(regressor, old(parameters))
        && State() == Next(cfg, old(State()), Sample(regressor, output)).0
      ensures !outcome.Residual? ==> State() == old(State())
    {
      if |regressor| != cfg.width {
        return RegressorMismatch(cfg.width, |regressor|);
      }
      hide Dot, Times, Trace, NextCovariance, Divided, Add, Scale, Capped;
      ghost var was, sample := State(), Sample(regressor, output);
      var scaled := Times(covariance, regressor);
      var denominator := cfg.forgetting + Dot(regressor, scaled);
      if denominator == 0.0 {
        return DivisionByZero;
      }
      var gain := Divided(scaled, denominator);
      var residual := output - Dot(regressor, parameters);
      Correct(gain, residual);
      Shrink(gain, scaled);
      assert State() == Fold(cfg, was, sample);
      BoundCovariance();
      outcome := Residual(residual);
    }

    method Correct(gain: Vector, residual: real)
      requires Valid() && |gain| == cfg.width
      modifies this`parameters
      ensures Valid() && parameters == Add(old(parameters), Scale(residual, gain))
    {
      ghost var target := Add(parameters, Scale(residual, gain));
      for index := 0 to cfg.width
        invariant parameters == target[..index] + old(parameters)[index..]
      {
        assert target[index] == parameters[index] + gain[index] * residual;
        parameters := parameters[index := parameters[index] + gain[index] * residual];
      }
    }

    method Shrink(gain: Vector, scaled: Vector)
      requires Valid() && |gain| == |scaled| == cfg.width
      modifies this`covariance
      ensures Valid() && covariance == NextCovariance(old(covariance), gain, scaled, cfg.forgetting)
    {
      hide Dot, Run, Tracks, NextCovariance, NextRow, NextEntry, Partly;
      ghost var target := NextCovariance(covariance, gain, scaled, cfg.forgetting);
      for row := 0 to cfg.width
        invariant covariance == target[..row] + old(covariance)[row..]
      {
        PartlyEdges(target, old(covariance), row);
        for column := 0 to cfg.width
          invariant covariance == Partly(target, old(covariance), row, column)
        {
          PartlyStep(target, old(covariance), row, column);
          var cell := covariance[row][column];
          NextCell(old(covariance), gain, scaled, cfg.forgetting, row, column, cell);
          var value := NextEntry(cell, gain[row], scaled[column], cfg.forgetting);
          covariance := covariance[row := covariance[row][column := value]];
        }
      }
    }

    method BoundCovariance()
      requires Valid()
      modifies this`covariance
      ensures Valid() && State() == Capped(cfg, old(State()))
    {
      var total := Trace(covariance, cfg.width);
      if total <= cfg.limit {
        return;
      }
      hide Trace, Rescale;
      ghost var ratio := CapRatio(cfg.limit, total);
      ScaleCells(cfg.limit / total);
    }

    method ScaleCells(scale: real)
      requires Valid()
      modifies this`covariance
      ensures Valid() && covariance == Rescale(old(covariance), scale)
    {
      hide Rescale, Partly;
      ghost var target := Rescale(covariance, scale);
      for row := 0 to cfg.width
        invariant covariance == target[..row] + old(covariance)[row..]
      {
        PartlyEdges(target, old(covariance), row);
        for column := 0 to cfg.width
          invariant covariance == Partly(target, old(covariance), row, column)
        {
          PartlyStep(target, old(covariance), row, column);
          var cell := covariance[row][column];
          RescaledCell(old(covariance), scale, row, column, cell);
          covariance := covariance[row := covariance[row][column := cell * scale]];
        }
      }
    }
  }
}
