/** Fitting a plant to a step response (`engine/src/flyball/autotune/fit.py`): a seed from two points of
    the response, and a polish of it on a grid that shrinks. `exp` is any function: only that it is
    never asked for a quotient by zero, and what the search does with the errors, is at issue. */
module Fit {
  import opened Options
  import Sim = Plant

  datatype Sample = Sample(time: real, value: real)

  /** A time constant and a dead time that can be a plant's. */
  datatype Pair = Pair(tau: real, dead: real)
  type Plant = p: Pair | p.tau > 0.0 && p.dead >= 0.0 witness Pair(1.0, 0.0)

  function Max(a: real, b: real): real {
    if a >= b then a else b
  }

  /** The normalised response of a plant to a step, from 0 to 1. */
  function Shape(exp: real -> real, elapsed: real, p: Plant): real {
    var after := elapsed - p.dead;
    if after <= 0.0 then 0.0 else 1.0 - exp(-after / p.tau)
  }

  function Product(a: real, b: real): real {
    a * b
  }

  function Squared(a: real): real {
    Product(a, a)
  }

  function Sse(exp: real -> real, fractions: seq<Sample>, p: Plant): real {
    if fractions == [] then 0.0
    else
      var n := |fractions| - 1;
      Sse(exp, fractions[..n], p) + Squared(fractions[n].value - Shape(exp, fractions[n].time, p))
  }

  // What is fitted.

  /** Nothing up to the dead time, and after it a lag's rise towards 1. */
  lemma {:induction false} ShapeIs(exp: real -> real, elapsed: real, p: Plant)
    ensures elapsed <= p.dead ==> Shape(exp, elapsed, p) == 0.0
    ensures elapsed > p.dead ==> Shape(exp, elapsed, p) == 1.0 - exp(-(elapsed - p.dead) / p.tau)
  {
  }

  /** It is the step response of the simulated plant: from rest on the drive in force, a new input moves the
      output by `gain` times its change times the shape. */
  lemma {:induction false} ShapeIsStepResponse(exp: real -> real, lag: Sim.Response, dead: real, s: Sim.Delayed, dt: real)
    requires Sim.ExpLaws(exp) && lag.tau > 0.0 && dead >= 0.0 && dt >= 0.0
    requires s.pipe == [] && s.value == lag.ambient + lag.gain * s.drive
    ensures Sim.Delay(exp, lag, dead, s, dt).value
         == s.value + lag.gain * (s.input - s.drive) * Shape(exp, dt, Pair(lag.tau, dead))
  {
    hide Sim.ExpLaws, Sim.Delay, Sim.Drain;
    Sim.DeadTimeIsExact(exp, lag, dead, s, dt);
    Sim.LagSettles(exp, lag, s.drive, s.value, if dt <= dead then dt else dead);
    if dt > dead {
      Rises(lag.ambient, lag.gain, s.drive, s.input, s.value, exp(-(dt - dead) / lag.tau));
    }
  }

  lemma {:induction false} Rises(ambient: real, gain: real, drive: real, input: real, value: real, x: real)
    requires value == ambient + gain * drive
    ensures ambient + gain * input + (value - (ambient + gain * input)) * x == value + gain * (input - drive) * (1.0 - x)
  {
    var change := gain * (input - drive);
    assert value - (ambient + gain * input) == -change;
    assert change * (1.0 - x) == change - change * x;
  }

  /** The error is the sum of the squared distances: never negative, and nothing exactly when every sample is
      on the shape. */
  lemma {:induction false} SseIs(exp: real -> real, fractions: seq<Sample>, p: Plant)
    ensures Sse(exp, fractions, p) >= 0.0
    ensures Sse(exp, fractions, p) == 0.0 <==>
      forall i :: 0 <= i < |fractions| ==> fractions[i].value == Shape(exp, fractions[i].time, p)
    ensures fractions != [] ==>
      var last := fractions[|fractions| - 1];
      var off := last.value - Shape(exp, last.time, p);
      Sse(exp, fractions, p) == Sse(exp, fractions[..|fractions| - 1], p) + off * off
    decreases |fractions|
  {
    hide Shape, Squared;
    if fractions != [] {
      var n := |fractions| - 1;
      SseIs(exp, fractions[..n], p);
      var off := fractions[n].value - Shape(exp, fractions[n].time, p);
      SquareIs(off);
      SquareSign(off);
      assert forall i :: 0 <= i < n ==> fractions[..n][i] == fractions[i];
    }
  }

  lemma {:induction false} SquareIs(a: real)
    ensures Squared(a) == a * a
  {
  }

  lemma {:induction false} SquareSign(a: real)
    ensures Squared(a) >= 0.0 && (Squared(a) == 0.0 <==> a == 0.0)
  {
    hide Product;
    Signs(a, a);
  }

  lemma {:induction false} Signs(a: real, b: real)
    ensures a > 0.0 && b > 0.0 ==> Product(a, b) > 0.0
    ensures a < 0.0 && b < 0.0 ==> Product(a, b) > 0.0
    ensures a == 0.0 ==> Product(a, b) == 0.0
  {
  }

  // The grid.

  /** One pass: where the grid is centred, how far it reaches, and how fine it is. */
  datatype Search = Search(centre: Plant, span: real, floor: real, points: nat) {
    predicate Valid() { span >= 0.0 && 0.0 < floor <= centre.tau && points != 1 }
  }

  /** From -1 to 1 along an axis. */
  function Along(i: nat, points: nat): real
    requires i < points && points != 1
  {
    2.0 * i as real / (points - 1) as real - 1.0
  }

  /** The points are as far apart as each other, the first at -1 and the last at 1. */
  lemma {:induction false} AlongIs(i: nat, points: nat)
    requires i + 1 < points
    ensures Along(0, points) == -1.0 && Along(points - 1, points) == 1.0
    ensures (Along(i + 1, points) - Along(i, points)) * (points - 1) as real == 2.0
  {
    var n := (points - 1) as real;
    Spaced(2.0 * i as real, 2.0 * (i + 1) as real, n);
    Spaced(0.0, 2.0 * n, n);
  }

  lemma {:induction false} Spaced(a: real, b: real, n: real)
    requires n > 0.0
    ensures (b / n - 1.0 - (a / n - 1.0)) * n == b - a && 0.0 / n == 0.0 && 2.0 * n / n == 2.0
  {
  }

  function Offset(s: Search, i: nat): real
    requires s.Valid() && i < s.points
  {
    s.span * Along(i, s.points)
  }

  function Candidate(s: Search, i: nat, j: nat): Plant
    requires s.Valid() && i < s.points && j < s.points
  {
    Pair(Max(s.centre.tau + Offset(s, i), s.floor), Max(s.centre.dead + Offset(s, j), 0.0))
  }

  /** The grid goes from one span below its centre to one above, each axis held at what it may not pass. */
  lemma {:induction false} GridReaches(s: Search, k: nat)
    requires s.Valid() && k < s.points
    ensures var (centre, last) := (s.centre, s.points - 1);
      && Candidate(s, 0, k).tau == (if centre.tau - s.span >= s.floor then centre.tau - s.span else s.floor)
      && Candidate(s, last, k).tau == centre.tau + s.span
      && Candidate(s, k, 0).dead == (if centre.dead - s.span >= 0.0 then centre.dead - s.span else 0.0)
      && Candidate(s, k, last).dead == centre.dead + s.span
  {
    hide Along;
    AlongIs(0, s.points);
    assert s.span * -1.0 == -s.span && s.span * 1.0 == s.span;
  }

  function Tried(exp: real -> real, fractions: seq<Sample>, best: Plant, candidate: Plant): Plant {
    if Sse(exp, fractions, candidate) < Sse(exp, fractions, best) then candidate else best
  }

  /** What is best after the first `n` candidates of row `i`. */
  function Row(exp: real -> real, fractions: seq<Sample>, s: Search, best: Plant, i: nat, n: nat): Plant
    requires s.Valid() && i < s.points && n <= s.points
  {
    if n == 0 then best
    else Tried(exp, fractions, Row(exp, fractions, s, best, i, n - 1), Candidate(s, i, n - 1))
  }

  function Rows(exp: real -> real, fractions: seq<Sample>, s: Search, best: Plant, n: nat): Plant
    requires s.Valid() && n <= s.points
  {
    if n == 0 then best
    else Row(exp, fractions, s, Rows(exp, fractions, s, best, n - 1), n - 1, s.points)
  }

  /** How far the grid of pass `k` reaches. */
  function Span(tau: real, k: nat): real {
    if k == 0 then tau * 0.5 else Span(tau, k - 1) * 0.5
  }

  lemma {:induction false} SpanNotNegative(tau: real, k: nat)
    requires tau >= 0.0
    ensures Span(tau, k) >= 0.0
  {
    if k > 0 { SpanNotNegative(tau, k - 1); }
  }

  /** What is kept after `k` passes. */
  function Polished(exp: real -> real, fractions: seq<Sample>, seed: Plant, points: nat, k: nat): (p: Plant)
    requires points != 1
    ensures p.tau >= seed.tau * 0.001
    decreases k, 0
  {
    if k == 0 then seed
    else
      var s := Pass(exp, fractions, seed, points, k - 1);
      RowsChoose(exp, fractions, s, s.centre, points);
      Rows(exp, fractions, s, s.centre, points)
  }

  function Pass(exp: real -> real, fractions: seq<Sample>, seed: Plant, points: nat, k: nat): (s: Search)
    requires points != 1
    ensures s.Valid() && s.points == points && s.floor == seed.tau * 0.001
    decreases k, 1
  {
    SpanNotNegative(seed.tau, k);
    Search(Polished(exp, fractions, seed, points, k), Span(seed.tau, k), seed.tau * 0.001, points)
  }

  // What a pass keeps is no worse than anything it tried, and is something it tried or had.

  ghost predicate InGrid(s: Search, p: Plant) {
    s.Valid() && exists i, j :: 0 <= i < s.points && 0 <= j < s.points && p == Candidate(s, i, j)
  }

  lemma {:induction false} RowChooses(exp: real -> real, fractions: seq<Sample>, s: Search, best: Plant, i: nat,
      n: nat)
    requires s.Valid() && i < s.points && n <= s.points
    ensures var p := Row(exp, fractions, s, best, i, n);
      && (p == best || InGrid(s, p))
      && Sse(exp, fractions, p) <= Sse(exp, fractions, best)
      && forall j :: 0 <= j < n ==> Sse(exp, fractions, p) <= Sse(exp, fractions, Candidate(s, i, j))
  {
    hide Sse, Candidate;
    if n > 0 {
      RowChooses(exp, fractions, s, best, i, n - 1);
      assert InGrid(s, Candidate(s, i, n - 1));
    }
  }

  lemma {:induction false} RowsChoose(exp: real -> real, fractions: seq<Sample>, s: Search, best: Plant, n: nat)
    requires s.Valid() && n <= s.points
    ensures var p := Rows(exp, fractions, s, best, n);
      && (p == best || InGrid(s, p)) && (best.tau >= s.floor ==> p.tau >= s.floor)
      && Sse(exp, fractions, p) <= Sse(exp, fractions, best)
      && forall i, j :: 0 <= i < n && 0 <= j < s.points ==>
           Sse(exp, fractions, p) <= Sse(exp, fractions, Candidate(s, i, j))
  {
    hide Sse, Row, Offset;
    if n > 0 {
      RowsChoose(exp, fractions, s, best, n - 1);
      RowChooses(exp, fractions, s, Rows(exp, fractions, s, best, n - 1), n - 1, s.points);
    }
  }

  /** The polish never worsens the fit: what it returns is no worse than the seed, nor than any candidate
      of any of its passes; its time constant is at least a thousandth of the seed's and its dead time not
      negative, so no error it looks at divides by zero. */
  lemma {:induction false} RefiningNeverWorsens(exp: real -> real, fractions: seq<Sample>, seed: Plant, points: nat,
      k: nat)
    requires points != 1
    ensures var p := Polished(exp, fractions, seed, points, k);
      && p.tau >= seed.tau * 0.001 > 0.0 && p.dead >= 0.0
      && Sse(exp, fractions, p) <= Sse(exp, fractions, seed)
      && forall pass, i, j :: 0 <= pass < k && 0 <= i < points && 0 <= j < points ==>
           Sse(exp, fractions, p) <= Sse(exp, fractions, Candidate(Pass(exp, fractions, seed, points, pass), i, j))
  {
    hide Sse, Rows, Candidate, Pass;
    if k > 0 {
      RefiningNeverWorsens(exp, fractions, seed, points, k - 1);
      PassKeeps(exp, fractions, seed, points, k);
    }
  }

  lemma {:induction false} PassKeeps(exp: real -> real, fractions: seq<Sample>, seed: Plant, points: nat, k: nat)
    requires points != 1 && k > 0
    ensures var p, before := Polished(exp, fractions, seed, points, k), Polished(exp, fractions, seed, points, k - 1);
      var s := Pass(exp, fractions, seed, points, k - 1);
      && s.centre == before && s.span == Span(seed.tau, k - 1) && (p == before || InGrid(s, p))
      && Sse(exp, fractions, p) <= Sse(exp, fractions, before)
      && forall i, j :: 0 <= i < points && 0 <= j < points ==>
           Sse(exp, fractions, p) <= Sse(exp, fractions, Candidate(s, i, j))
  {
    hide Sse, Rows, Candidate;
    var s := Pass(exp, fractions, seed, points, k - 1);
    RowsChoose(exp, fractions, s, s.centre, points);
  }

  function Apart(a: real, b: real): real {
    if a <= b then b - a else a - b
  }

  lemma {:induction false} AlongWithin(i: nat, points: nat)
    requires i < points && points != 1
    ensures -1.0 <= Along(i, points) <= 1.0
  {
    var n, a := (points - 1) as real, 2.0 * i as real;
    var q := a / n;
    Divides(a, n);
    assert 0.0 <= a <= 2.0 * n;
    Share(q, n, a);
  }

  lemma {:induction false} OffsetWithin(s: Search, i: nat)
    requires s.Valid() && i < s.points
    ensures -s.span <= Offset(s, i) <= s.span
  {
    hide Along;
    AlongWithin(i, s.points);
    Portion(Along(i, s.points), s.span);
  }

  lemma {:induction false} Divides(a: real, w: real)
    requires w != 0.0
    ensures a / w * w == a
  {
  }

  lemma {:induction false} Share(q: real, n: real, a: real)
    requires n > 0.0 && q * n == a && 0.0 <= a <= 2.0 * n
    ensures 0.0 <= q <= 2.0
  {
  }

  lemma {:induction false} Portion(r: real, span: real)
    requires -1.0 <= r <= 1.0 && span >= 0.0
    ensures -span <= span * r <= span
  {
  }

  lemma {:induction false} CandidateNear(s: Search, p: Plant)
    requires InGrid(s, p)
    ensures Apart(p.tau, s.centre.tau) <= s.span && Apart(p.dead, s.centre.dead) <= s.span
  {
    hide Offset;
    var i, j :| 0 <= i < s.points && 0 <= j < s.points && p == Candidate(s, i, j);
    OffsetWithin(s, i);
    OffsetWithin(s, j);
  }

  /** And it stays near: the passes together reach less than the seed's time constant from the seed. */
  lemma {:induction false} RefiningStaysNear(exp: real -> real, fractions: seq<Sample>, seed: Plant, points: nat,
      k: nat)
    requires points != 1
    ensures var p, reach := Polished(exp, fractions, seed, points, k), seed.tau - 2.0 * Span(seed.tau, k);
      reach < seed.tau && Apart(p.tau, seed.tau) <= reach && Apart(p.dead, seed.dead) <= reach
  {
    hide Polished, InGrid;
    SpanPositive(seed.tau, k);
    if k == 0 {
      NoPass(exp, fractions, seed, points);
    } else {
      RefiningStaysNear(exp, fractions, seed, points, k - 1);
      PassKeeps(exp, fractions, seed, points, k);
      var p, s := Polished(exp, fractions, seed, points, k), Pass(exp, fractions, seed, points, k - 1);
      if p != s.centre { CandidateNear(s, p); }
    }
  }

  lemma {:induction false} NoPass(exp: real -> real, fractions: seq<Sample>, seed: Plant, points: nat)
    requires points != 1
    ensures Polished(exp, fractions, seed, points, 0) == seed
  {
  }

  lemma {:induction false} SpanPositive(tau: real, k: nat)
    requires tau > 0.0
    ensures Span(tau, k) > 0.0
  {
    if k > 0 { SpanPositive(tau, k - 1); }
  }

  /** `_refine`: three nested loops over the candidates, keeping the best. */
  method Refine(exp: real -> real, fractions: seq<Sample>, seed: Plant, passes: nat, points: nat)
    returns (found: Plant)
    requires points != 1
    ensures found == Polished(exp, fractions, seed, points, passes)
  {
    hide Sse, Polished, Pass, Candidate, Rows, Row;
    var best := Sse(exp, fractions, seed);
    found := seed;
    var span, floor := seed.tau * 0.5, seed.tau * 0.001;
    NoPass(exp, fractions, seed, points);
    for pass := 0 to passes
      invariant found == Polished(exp, fractions, seed, points, pass) && best == Sse(exp, fractions, found)
      invariant span == Span(seed.tau, pass)
    {
      var s := Search(found, span, floor, points);
      PassIs(exp, fractions, seed, points, pass, s);
      NoRows(exp, fractions, s);
      for i := 0 to points
        invariant found == Rows(exp, fractions, s, s.centre, i) && best == Sse(exp, fractions, found)
      {
        ghost var before := found;
        RowStarts(exp, fractions, s, before, i);
        for j := 0 to points
          invariant found == Row(exp, fractions, s, before, i, j) && best == Sse(exp, fractions, found)
        {
          RowMoves(exp, fractions, s, before, i, j);
          var candidate := Candidate(s, i, j);
          var sse := Sse(exp, fractions, candidate);
          if sse < best {
            best, found := sse, candidate;
          }
        }
        RowEnds(exp, fractions, s, s.centre, i);
      }
      PassEnds(exp, fractions, seed, points, pass);
      span := span * 0.5;
    }
  }

  lemma {:induction false} PassIs(exp: real -> real, fractions: seq<Sample>, seed: Plant, points: nat, k: nat,
      s: Search)
    requires points != 1 && s.centre == Polished(exp, fractions, seed, points, k) && s.span == Span(seed.tau, k)
    requires s.floor == seed.tau * 0.001 && s.points == points
    ensures s == Pass(exp, fractions, seed, points, k) && s.Valid()
  {
  }

  lemma {:induction false} NoRows(exp: real -> real, fractions: seq<Sample>, s: Search)
    requires s.Valid()
    ensures Rows(exp, fractions, s, s.centre, 0) == s.centre
  {
  }

  lemma {:induction false} RowStarts(exp: real -> real, fractions: seq<Sample>, s: Search, best: Plant, i: nat)
    requires s.Valid() && i < s.points
    ensures Row(exp, fractions, s, best, i, 0) == best
  {
  }

  lemma {:induction false} RowMoves(exp: real -> real, fractions: seq<Sample>, s: Search, best: Plant, i: nat, j: nat)
    requires s.Valid() && i < s.points && j < s.points
    ensures Row(exp, fractions, s, best, i, j + 1)
         == Tried(exp, fractions, Row(exp, fractions, s, best, i, j), Candidate(s, i, j))
  {
  }

  lemma {:induction false} RowEnds(exp: real -> real, fractions: seq<Sample>, s: Search, best: Plant, i: nat)
    requires s.Valid() && i < s.points
    ensures Rows(exp, fractions, s, best, i + 1)
         == Row(exp, fractions, s, Rows(exp, fractions, s, best, i), i, s.points)
  {
  }

  lemma {:induction false} PassEnds(exp: real -> real, fractions: seq<Sample>, seed: Plant, points: nat, k: nat)
    requires points != 1
    ensures var s := Pass(exp, fractions, seed, points, k);
      Rows(exp, fractions, s, s.centre, points) == Polished(exp, fractions, seed, points, k + 1)
  {
  }

  // The two points of the seed.

  /** A response first at or past the target in sample `i`, the first sample not looked at. */
  ghost predicate FirstPast(fractions: seq<Sample>, target: real, i: nat) {
    && 1 <= i < |fractions| && fractions[i].value >= target
    && forall k :: 1 <= k < i ==> fractions[k].value < target
  }

  function Crossing(p: Sample, q: Sample, target: real): real {
    var rise := q.value - p.value;
    if rise <= 0.0 then q.time else p.time + (target - p.value) * (q.time - p.time) / rise
  }

  function Reaches(fractions: seq<Sample>, target: real): Option<real>
    requires fractions != []
    decreases |fractions|
  {
    if |fractions| == 1 then None
    else if fractions[1].value >= target then Some(Crossing(fractions[0], fractions[1], target))
    else Reaches(fractions[1..], target)
  }

  lemma {:induction false} ReachesFirst(fractions: seq<Sample>, target: real)
    requires fractions != []
    ensures Reaches(fractions, target) == None <==> forall i :: 1 <= i < |fractions| ==> fractions[i].value < target
    ensures forall i: nat :: FirstPast(fractions, target, i) ==>
      Reaches(fractions, target) == Some(Crossing(fractions[i - 1], fractions[i], target))
    decreases |fractions|
  {
    if |fractions| > 1 && fractions[1].value < target {
      var rest := fractions[1..];
      ReachesFirst(rest, target);
      forall i: nat | FirstPast(fractions, target, i)
        ensures Reaches(fractions, target) == Some(Crossing(fractions[i - 1], fractions[i], target))
      {
        assert rest[i - 1] == fractions[i] && rest[i - 2] == fractions[i - 1];
        forall k | 1 <= k < i - 1 ensures rest[k].value < target { assert rest[k] == fractions[k + 1]; }
        assert FirstPast(rest, target, i - 1);
      }
      forall i | 1 <= i < |rest| ensures rest[i] == fractions[i + 1] {
      }
      forall i | 2 <= i < |fractions| ensures fractions[i] == rest[i - 1] {
      }
    }
  }

  /** From below the target, the crossing is between the two samples, where the line through them is at it. */
  lemma {:induction false} CrossingBetween(p: Sample, q: Sample, target: real)
    requires p.value < target <= q.value && p.time <= q.time
    ensures var t := Crossing(p, q, target);
      && p.time <= t <= q.time
      && (t - p.time) * (q.value - p.value) == (target - p.value) * (q.time - p.time)
  {
    var rise, part, width := q.value - p.value, target - p.value, q.time - p.time;
    StepWithin(rise, part, width);
    Divides(part * width, rise);
  }

  lemma {:induction false} WithinStep(d: real, rise: real, part: real, width: real)
    requires 0.0 <= part <= rise && rise > 0.0 && width >= 0.0 && d * rise == part * width
    ensures 0.0 <= d <= width
  {
    NotNegative(part, width);
    Portions(part, rise, width);
    if d < 0.0 {
      Less(d, 0.0, rise);
    } else if d > width {
      Less(width, d, rise);
    }
  }

  lemma {:induction false} NotNegative(a: real, b: real)
    requires a >= 0.0 && b >= 0.0
    ensures a * b >= 0.0
  {
  }

  lemma {:induction false} Less(a: real, b: real, c: real)
    requires a < b && c > 0.0
    ensures a * c < b * c
  {
  }

  lemma {:induction false} Portions(part: real, rise: real, width: real)
    requires part <= rise && width >= 0.0
    ensures part * width <= width * rise
  {
  }

  /** Further up the same rise is later. */
  lemma {:induction false} CrossingRises(p: Sample, q: Sample, low: real, high: real)
    requires p.value <= low < high <= q.value && p.time < q.time
    ensures p.time <= Crossing(p, q, low) < Crossing(p, q, high) <= q.time
  {
    var rise, width := q.value - p.value, q.time - p.time;
    StepWithin(rise, low - p.value, width);
    StepWithin(rise, high - p.value, width);
    StepRises(rise, low - p.value, high - p.value, width);
  }

  lemma {:induction false} StepWithin(rise: real, part: real, width: real)
    requires 0.0 <= part <= rise && rise > 0.0 && width >= 0.0
    ensures 0.0 <= part * width / rise <= width
  {
    Divides(part * width, rise);
    WithinStep(part * width / rise, rise, part, width);
  }

  lemma {:induction false} StepRises(rise: real, a: real, b: real, width: real)
    requires a < b && rise > 0.0 && width > 0.0
    ensures a * width / rise < b * width / rise
  {
    Less(a, b, width);
    QuotientRises(a * width, b * width, rise);
  }

  lemma {:induction false} QuotientRises(a: real, b: real, rise: real)
    requires a < b && rise > 0.0
    ensures a / rise < b / rise
  {
    var x, y := a / rise, b / rise;
    assert x * rise == a && y * rise == b;
    if x >= y { NoMore(y, x, rise); }
  }

  lemma {:induction false} NoMore(a: real, b: real, c: real)
    requires a <= b && c > 0.0
    ensures a * c <= b * c
  {
  }

  // The fit.

  const HIGH := 0.632
  const LOW := 0.283
  const PASSES := 8
  const POINTS := 7

  datatype Outcome =
    | Fitted(gain: real, plant: Plant, meanSquare: real)
    | NotMoved | NothingRead | NeverReached | TooAbrupt

  function Normalised(samples: seq<Sample>, start: real, initial: real, change: real): seq<Sample>
    requires change != 0.0
  {
    if samples == [] then []
    else
      (if samples[0].time >= start then [Sample(samples[0].time - start, (samples[0].value - initial) / change)] else [])
        + Normalised(samples[1..], start, initial, change)
  }

  /** What the two points give: a plant, unless they are not there or not apart. */
  function Seed(fractions: seq<Sample>): Outcome {
    if fractions == [] then NothingRead
    else
      match (Reaches(fractions, HIGH), Reaches(fractions, LOW))
      case (Some(high), Some(low)) =>
        var tau := 1.5 * (high - low);
        if tau <= 0.0 then TooAbrupt else Fitted(0.0, Pair(tau, Max(high - tau, 0.0)), 0.0)
      case _ => NeverReached
  }

  /** A sample timed from the step, and as a part of the whole change. */
  ghost predicate IsPart(x: Sample, part: Sample, start: real, initial: real, change: real) {
    part.time == x.time - start >= 0.0 && part.value * change == x.value - initial
  }

  /** The fractions are the parts of the samples from the step on, those at `at`, in their order. */
  ghost predicate FromStep(samples: seq<Sample>, start: real, initial: real, change: real, fractions: seq<Sample>,
      at: seq<nat>) {
    && |at| == |fractions|
    && (forall k :: 0 <= k < |at| ==> at[k] < |samples| && IsPart(samples[at[k]], fractions[k], start, initial, change))
    && (forall j, k :: 0 <= j < k < |at| ==> at[j] < at[k])
    && (forall i: nat :: i < |samples| && samples[i].time >= start ==> i in at)
  }

  lemma {:induction false} NormalisedIs(samples: seq<Sample>, start: real, initial: real, change: real)
      returns (at: seq<nat>)
    requires change != 0.0
    ensures FromStep(samples, start, initial, change, Normalised(samples, start, initial, change), at)
    decreases |samples|
  {
    at := [];
    if samples != [] {
      hide FromStep, Normalised, IsPart;
      var n := |samples| - 1;
      var (before, last) := (samples[..n], samples[n]);
      at := NormalisedIs(before, start, initial, change);
      assert samples == before + [last];
      NormalisedMore(before, last, start, initial, change);
      var fractions := Normalised(before, start, initial, change);
      if last.time >= start {
        var part := Sample(last.time - start, (last.value - initial) / change);
        PartOf(last, part, start, initial, change);
        PartAdded(before, last, start, initial, change, fractions, part, at);
        at := at + [n];
      } else {
        PartsKept(before, last, start, initial, change, fractions, at);
      }
    }
  }

  lemma {:induction false} PartOf(x: Sample, part: Sample, start: real, initial: real, change: real)
    requires change != 0.0 && x.time >= start && part == Sample(x.time - start, (x.value - initial) / change)
    ensures IsPart(x, part, start, initial, change)
  {
    Divides(x.value - initial, change);
  }

  lemma {:induction false} PartAdded(samples: seq<Sample>, last: Sample, start: real, initial: real, change: real,
      fractions: seq<Sample>, part: Sample, at: seq<nat>)
    requires FromStep(samples, start, initial, change, fractions, at) && IsPart(last, part, start, initial, change)
    ensures FromStep(samples + [last], start, initial, change, fractions + [part], at + [|samples|])
  {
    hide IsPart;
    var (n, all) := (|samples|, at + [|samples|]);
    assert all[|at|] == n;
    forall i: nat | i < n && samples[i].time >= start ensures i in all {
      assert i in at;
    }
  }

  lemma {:induction false} PartsKept(samples: seq<Sample>, last: Sample, start: real, initial: real, change: real,
      fractions: seq<Sample>, at: seq<nat>)
    requires FromStep(samples, start, initial, change, fractions, at) && last.time < start
    ensures FromStep(samples + [last], start, initial, change, fractions + [], at)
  {
    hide IsPart;
    assert fractions + [] == fractions;
  }

  lemma {:induction false} NormalisedMore(samples: seq<Sample>, last: Sample, start: real, initial: real, change: real)
    requires change != 0.0
    ensures Normalised(samples + [last], start, initial, change)
         == Normalised(samples, start, initial, change)
            + (if last.time >= start then [Sample(last.time - start, (last.value - initial) / change)] else [])
  {
    if samples == [] {
      assert [] + [last] == [last] && [last][1..] == [];
    } else {
      assert (samples + [last])[1..] == samples[1..] + [last];
      NormalisedMore(samples[1..], last, start, initial, change);
    }
  }

  /** A plant's own response, whatever it starts from and however far it goes, fits it with no error. */
  lemma {:induction false} OwnResponseFits(exp: real -> real, samples: seq<Sample>, start: real, initial: real,
      change: real, p: Plant)
    requires change != 0.0
    requires forall i :: 0 <= i < |samples| && samples[i].time >= start ==>
      samples[i].value == initial + change * Shape(exp, samples[i].time - start, p)
    ensures Sse(exp, Normalised(samples, start, initial, change), p) == 0.0
  {
    hide Shape, Sse, Normalised;
    var fractions := Normalised(samples, start, initial, change);
    var at := NormalisedIs(samples, start, initial, change);
    forall k | 0 <= k < |fractions| ensures fractions[k].value == Shape(exp, fractions[k].time, p) {
      SameFactor(fractions[k].value, Shape(exp, fractions[k].time, p), change);
    }
    SseIs(exp, fractions, p);
  }

  lemma {:induction false} SameFactor(a: real, b: real, c: real)
    requires c != 0.0 && a * c == c * b
    ensures a == b
  {
  }

  /** The two points are those a plant's response passes one third of a time constant and a whole one after its
      dead time: a response that passes the lower and the upper one then is seeded with that plant. */
  lemma {:induction false} SeedIsThePlant(fractions: seq<Sample>, p: Plant)
    requires fractions != []
    requires Reaches(fractions, 0.283) == Some(p.dead + p.tau / 3.0) && Reaches(fractions, 0.632) == Some(p.dead + p.tau)
    ensures Seed(fractions) == Fitted(0.0, p, 0.0)
  {
    hide Reaches;
  }

  lemma {:induction false} FirstPastExists(fractions: seq<Sample>, target: real, k: nat) returns (i: nat)
    requires 1 <= k < |fractions| && fractions[k].value >= target
    ensures FirstPast(fractions, target, i) && i <= k
    decreases k
  {
    i := k;
    if j: nat :| 1 <= j < k && fractions[j].value >= target { i := FirstPastExists(fractions, target, j); }
  }

  /** The two points are missing exactly when no sample but the first is at or past the upper one: once
      that is found, so is the lower. */
  lemma {:induction false} SeedMissing(fractions: seq<Sample>)
    requires fractions != []
    ensures Seed(fractions) == NeverReached <==> forall i :: 1 <= i < |fractions| ==> fractions[i].value < 0.632
  {
    hide Reaches;
    ReachesFirst(fractions, HIGH);
    ReachesFirst(fractions, LOW);
  }

  /** A response read at increasing times, from below the lower point, is never too abrupt: once it has
      reached the upper point it has a seed. */
  lemma {:induction false} NeverTooAbrupt(fractions: seq<Sample>, k: nat)
    requires forall i, j :: 0 <= i < j < |fractions| ==> fractions[i].time < fractions[j].time
    requires 1 <= k < |fractions| && fractions[0].value < 0.283 && fractions[k].value >= 0.632
    ensures Seed(fractions).Fitted?
  {
    hide Reaches, Crossing;
    ReachesFirst(fractions, HIGH);
    ReachesFirst(fractions, LOW);
    var h := FirstPastExists(fractions, HIGH, k);
    var l := FirstPastExists(fractions, LOW, h);
    var p, q := fractions[h - 1], fractions[h];
    if l == h {
      CrossingRises(p, q, LOW, HIGH);
    } else {
      CrossingRises(fractions[l - 1], fractions[l], fractions[l - 1].value, LOW);
      CrossingRises(p, q, p.value, HIGH);
    }
  }

  method FitFopdt(exp: real -> real, samples: seq<Sample>, start: real, initial: real, final: real, size: real,
      refine: bool)
    returns (outcome: Outcome)
    ensures outcome == NotMoved <==> final == initial || size == 0.0
    ensures outcome != NotMoved ==>
      var fractions := Normalised(samples, start, initial, final - initial);
      match Seed(fractions)
      case Fitted(_, seed, _) =>
        && outcome.Fitted? && outcome.gain == (final - initial) / size
        && outcome.plant == (if refine then Polished(exp, fractions, seed, 7, 8) else seed)
        && Sse(exp, fractions, outcome.plant) <= Sse(exp, fractions, seed)
        && fractions != []
        && outcome.meanSquare == Sse(exp, fractions, outcome.plant) / |fractions| as real
      case failure => outcome == failure
  {
    hide Sse, Polished;
    var change := final - initial;
    if change == 0.0 || size == 0.0 { return NotMoved; }
    var fractions := Normalised(samples, start, initial, change);
    if fractions == [] { return NothingRead; }
    var high := Reaches(fractions, HIGH);
    if high == None { return NeverReached; }
    var low := Reaches(fractions, LOW);
    if low == None { return NeverReached; }
    var tau := 1.5 * (high.value - low.value);
    var dead := Max(high.value - tau, 0.0);
    if tau <= 0.0 { return TooAbrupt; }
    var plant: Plant := Pair(tau, dead);
    RefiningNeverWorsens(exp, fractions, plant, POINTS, PASSES);
    if refine {
      plant := Refine(exp, fractions, plant, PASSES, POINTS);
    }
    return Fitted(change / size, plant, Sse(exp, fractions, plant) / |fractions| as real);
  }
}
