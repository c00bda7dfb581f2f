/** Feedforwards (`engine/src/flyball/control/feedforward.py`, `engine/src/flyball/model/feedforward.py`):
    the demand that ought to hold a setpoint, and the way back. */
module Feedforward {
  import opened Options

  datatype Point = Point(x: real, y: real)

  datatype Feedforward =
    | PassSetpoint
    | NoFeedforward
    | Affine(gain: real, bias: real, rateGain: Option<real>)
    | Table(points: seq<Point>, rateGain: Option<real>)

  /** Python's order on pairs: the order a table keeps its points in. */
  predicate Ordered(t: seq<Point>) {
    forall i :: 0 <= i < |t| - 1 ==> t[i].x < t[i + 1].x || (t[i].x == t[i + 1].x && t[i].y <= t[i + 1].y)
  }

  predicate Valid(f: Feedforward) {
    f.Table? ==> f.points != [] && Ordered(f.points)
  }

  // Interpolation.

  function BisectLeft(t: seq<Point>, x: real): nat {
    if t == [] || t[0].x >= x then 0 else 1 + BisectLeft(t[1..], x)
  }

  function Line(p: Point, q: Point, x: real): real {
    if q.x == p.x then p.y else p.y + (q.y - p.y) * (x - p.x) / (q.x - p.x)
  }

  lemma {:induction false} BisectSplits(t: seq<Point>, x: real)
    ensures var i := BisectLeft(t, x);
      i <= |t| && (forall j :: 0 <= j < i ==> t[j].x < x) && (i < |t| ==> t[i].x >= x)
    decreases |t|
  {
    if t != [] && t[0].x < x { BisectSplits(t[1..], x); }
  }

  function Interpolate(t: seq<Point>, x: real): real
    requires t != []
  {
    BisectSplits(t, x);
    var i := BisectLeft(t, x);
    if i == 0 then t[0].y else if i == |t| then t[|t| - 1].y else Line(t[i - 1], t[i], x)
  }

  predicate Ascending(t: seq<Point>) {
    forall i :: 0 <= i < |t| - 1 ==> t[i].y <= t[i + 1].y
  }

  predicate Descending(t: seq<Point>) {
    forall i :: 0 <= i < |t| - 1 ==> t[i].y >= t[i + 1].y
  }

  function Swapped(t: seq<Point>): seq<Point> {
    seq(|t|, i requires 0 <= i < |t| => Point(t[i].y, t[i].x))
  }

  function Reversed(t: seq<Point>): seq<Point> {
    seq(|t|, i requires 0 <= i < |t| => t[|t| - 1 - i])
  }

  /** The table read the other way: by demand, ascending. */
  function Inverse(t: seq<Point>): seq<Point> {
    Swapped(if Ascending(t) then t else Reversed(t))
  }

  function Extra(rateGain: Option<real>, rate: real): real {
    if rateGain.Some? then rateGain.value * rate else 0.0
  }

  function Evaluate(f: Feedforward, setpoint: real, rate: real): real
    requires Valid(f)
  {
    match f
    case PassSetpoint => setpoint
    case NoFeedforward => 0.0
    case Affine(gain, bias, rateGain) => gain * setpoint + bias + Extra(rateGain, rate)
    case Table(points, rateGain) => Interpolate(points, setpoint) + Extra(rateGain, rate)
  }

  datatype Inverted = Aim(setpoint: real) | NotInvertible

  function Invert(f: Feedforward, demand: real, rate: real): Inverted
    requires Valid(f)
  {
    match f
    case PassSetpoint => Aim(demand)
    case NoFeedforward => NotInvertible
    case Affine(gain, bias, rateGain) =>
      if gain == 0.0 then NotInvertible else Aim((demand - Extra(rateGain, rate) - bias) / gain)
    case Table(points, rateGain) =>
      if Ascending(points) || Descending(points) then
        Aim(Interpolate(Inverse(points), demand - Extra(rateGain, rate)))
      else NotInvertible
  }

  // Interpolation on a table in order.

  ghost predicate InOrder(t: seq<Point>) {
    forall i, j :: 0 <= i <= j < |t| ==> t[i].x <= t[j].x
  }

  /** Points that share a setpoint agree. */
  ghost predicate Functional(t: seq<Point>) {
    forall i, j :: 0 <= i < |t| && 0 <= j < |t| && t[i].x == t[j].x ==> t[i].y == t[j].y
  }

  /** In any segment, ends included, interpolation is the segment's line. */
  lemma {:induction false} OnSegment(t: seq<Point>, k: nat, x: real)
    requires InOrder(t) && Functional(t) && k + 1 < |t| && t[k].x <= x <= t[k + 1].x
    ensures Interpolate(t, x) == Line(t[k], t[k + 1], x)
  {
    BisectSplits(t, x);
    var i := BisectLeft(t, x);
    if x > t[k].x {
      assert i == k + 1;
    } else {
      assert t[i].x == x == t[k].x;
      AtStart(t[k], t[k + 1]);
      if i > 0 { AtEnd(t[i - 1], t[i]); }
    }
  }

  lemma {:induction false} AtEnd(p: Point, q: Point)
    requires p.x < q.x
    ensures Line(p, q, q.x) == q.y
  {
  }

  lemma {:induction false} AtStart(p: Point, q: Point)
    ensures Line(p, q, p.x) == p.y
  {
  }

  lemma {:induction false} AtPoint(t: seq<Point>, k: nat)
    requires InOrder(t) && Functional(t) && k < |t|
    ensures Interpolate(t, t[k].x) == t[k].y
  {
    BisectSplits(t, t[k].x);
    var i := BisectLeft(t, t[k].x);
    assert t[i].x == t[k].x;
    if i > 0 { AtEnd(t[i - 1], t[i]); }
  }

  /** What each asks for: the setpoint itself, nothing, or a line in it; and with a rate gain, that much
      more for each unit of the rate. */
  lemma {:induction false} EvaluatesTo(f: Feedforward, setpoint: real, rate: real)
    requires Valid(f)
    ensures f == PassSetpoint ==> Evaluate(f, setpoint, rate) == setpoint
    ensures f == NoFeedforward ==> Evaluate(f, setpoint, rate) == 0.0
    ensures f.Affine? ==>
      Evaluate(f, setpoint, rate) - f.bias - (if f.rateGain.Some? then rate * f.rateGain.value else 0.0) == setpoint * f.gain
    ensures f.Table? ==>
      Evaluate(f, setpoint, rate) == Evaluate(f, setpoint, 0.0) + if f.rateGain.Some? then f.rateGain.value * rate else 0.0
  {
    hide Interpolate;
    if f.Table? && f.rateGain.Some? { assert f.rateGain.value * 0.0 == 0.0; }
  }

  /** A table's demand, the setpoint still: its own at each point, on the line from one to the next between
      them, and flat beyond the ends. */
  lemma {:induction false} TableReads(f: Feedforward, setpoint: real, k: nat)
    requires f.Table? && Valid(f) && Functional(f.points) && k < |f.points|
    ensures var (t, demand) := (f.points, Evaluate(f, setpoint, 0.0));
      && (setpoint == t[k].x ==> demand == t[k].y)
      && (setpoint <= t[0].x ==> demand == t[0].y)
      && (setpoint >= t[|t| - 1].x ==> demand == t[|t| - 1].y)
      && (k + 1 < |t| && t[k].x < setpoint < t[k + 1].x ==>
            (demand - t[k].y) * (t[k + 1].x - t[k].x) == (t[k + 1].y - t[k].y) * (setpoint - t[k].x))
  {
    hide Interpolate, Line, InOrder, Functional;
    var t := f.points;
    KeptInOrder(t);
    if f.rateGain.Some? { assert f.rateGain.value * 0.0 == 0.0; }
    AtPoint(t, k);
    AtPoint(t, 0);
    AtPoint(t, |t| - 1);
    FlatBeyond(t, setpoint);
    if k + 1 < |t| && t[k].x < setpoint < t[k + 1].x {
      OnSegment(t, k, setpoint);
      LineRatio(t[k], t[k + 1], setpoint);
    }
  }

  lemma {:induction false} LineRatio(p: Point, q: Point, x: real)
    requires p.x < q.x
    ensures (Line(p, q, x) - p.y) * (q.x - p.x) == (q.y - p.y) * (x - p.x)
  {
    var (num, width) := ((q.y - p.y) * (x - p.x), q.x - p.x);
    assert num / width * width == num;
  }

  lemma {:induction false} FlatBeyond(t: seq<Point>, x: real)
    requires t != [] && InOrder(t)
    ensures x < t[0].x ==> Interpolate(t, x) == t[0].y
    ensures x > t[|t| - 1].x ==> Interpolate(t, x) == t[|t| - 1].y
  {
    BisectSplits(t, x);
  }

  // A segment there and back.

  function Flip(p: Point): Point {
    Point(p.y, p.x)
  }

  lemma {:induction false} Ratio(a: real, b: real, c: real)
    requires c != 0.0
    ensures a * b / c == a * (b / c) && (a * b) / c * c == a * b
  {
  }

  lemma {:induction false} Cancel(a: real, c: real, r: real)
    requires c != 0.0
    ensures a * (c * r) / c == a * r
  {
  }

  lemma {:induction false} ThereAndBack(p: Point, q: Point, d: real)
    requires p.x != q.x && p.y != q.y
    ensures Line(p, q, Line(Flip(p), Flip(q), d)) == d
  {
    var w, h, e := q.x - p.x, q.y - p.y, d - p.y;
    Ratio(w, e, h);
    var r := e / h;
    var x := Line(Flip(p), Flip(q), d);
    assert x - p.x == w * r;
    Cancel(h, w, r);
    assert h * r == e;
    LineOf(p, q, x, w * r);
  }

  lemma {:induction false} LineOf(p: Point, q: Point, x: real, along: real)
    requires p.x != q.x && x - p.x == along
    ensures Line(p, q, x) == p.y + (q.y - p.y) * along / (q.x - p.x)
  {
  }

  /** Where the line crosses `d`, going from `p` up to `q`: between their setpoints. */
  lemma {:induction false} CrossesBetween(p: Point, q: Point, d: real)
    requires p.y < q.y && p.y <= d <= q.y
    ensures var x := Line(Flip(p), Flip(q), d);
      (p.x <= q.x ==> p.x <= x <= q.x) && (q.x <= p.x ==> q.x <= x <= p.x)
  {
    var w, h, e := q.x - p.x, q.y - p.y, d - p.y;
    Ratio(w, e, h);
    var r := e / h;
    assert r * h == e;
    Fraction(r, h, e);
    assert Line(Flip(p), Flip(q), d) == p.x + w * r;
    Portion(w, r);
  }

  lemma {:induction false} Fraction(r: real, h: real, e: real)
    requires h > 0.0 && 0.0 <= e <= h && r * h == e
    ensures 0.0 <= r <= 1.0
  {
  }

  lemma {:induction false} Portion(w: real, r: real)
    requires 0.0 <= r <= 1.0
    ensures w >= 0.0 ==> 0.0 <= w * r <= w
    ensures w <= 0.0 ==> w <= w * r <= 0.0
  {
  }

  ghost predicate Spans(t: seq<Point>, y: real) {
    t != [] && (t[0].y <= y <= t[|t| - 1].y || t[|t| - 1].y <= y <= t[0].y)
  }

  ghost predicate Rising(t: seq<Point>) {
    forall i, j :: 0 <= i <= j < |t| ==> t[i].y <= t[j].y
  }

  ghost predicate Falling(t: seq<Point>) {
    forall i, j :: 0 <= i <= j < |t| ==> t[i].y >= t[j].y
  }

  lemma {:induction false} RisesAll(t: seq<Point>)
    ensures Ascending(t) <==> Rising(t)
    ensures Descending(t) <==> Falling(t)
  {
    if Ascending(t) {
      forall i, j | 0 <= i <= j < |t| ensures t[i].y <= t[j].y { RisesFrom(t, i, j); }
    }
    if Descending(t) {
      forall i, j | 0 <= i <= j < |t| ensures t[i].y >= t[j].y { FallsFrom(t, i, j); }
    }
  }

  lemma {:induction false} RisesFrom(t: seq<Point>, i: nat, j: nat)
    requires Ascending(t) && i <= j < |t|
    ensures t[i].y <= t[j].y
    decreases j - i
  {
    if i < j { RisesFrom(t, i, j - 1); }
  }

  lemma {:induction false} FallsFrom(t: seq<Point>, i: nat, j: nat)
    requires Descending(t) && i <= j < |t|
    ensures t[i].y >= t[j].y
    decreases j - i
  {
    if i < j { FallsFrom(t, i, j - 1); }
  }

  lemma {:induction false} InverseAt(t: seq<Point>, k: nat)
    requires k < |t|
    ensures |Inverse(t)| == |t| && Inverse(t)[k] == Flip(if Ascending(t) then t[k] else t[|t| - 1 - k])
  {
  }

  lemma {:induction false} ReadsBackUp(t: seq<Point>, d: real)
    requires InOrder(t) && Functional(t) && t != [] && Ascending(t) && t[0].y <= d <= t[|t| - 1].y
    ensures Interpolate(t, Interpolate(Inverse(t), d)) == d
  {
    hide Interpolate, Line, Functional, Inverse, InOrder, Ascending;
    InverseAt(t, |t| - 1);
    var s := Inverse(t);
    var i := Locate(s, d);
    InverseAt(t, i);
    if i == 0 {
      AtPoint(t, 0);
    } else {
      InverseAt(t, i - 1);
      Crossing(t, i - 1, i, d);
      OnSegment(t, i - 1, Line(s[i - 1], s[i], d));
    }
  }

  lemma {:induction false} ReadsBackDown(t: seq<Point>, d: real)
    requires InOrder(t) && Functional(t) && t != [] && !Ascending(t) && t[|t| - 1].y <= d <= t[0].y
    ensures Interpolate(t, Interpolate(Inverse(t), d)) == d
  {
    hide Interpolate, Line, Functional, Inverse, InOrder, Ascending;
    var n := |t|;
    InverseAt(t, n - 1);
    var s := Inverse(t);
    var i := Locate(s, d);
    InverseAt(t, i);
    if i == 0 {
      AtPoint(t, n - 1);
    } else {
      InverseAt(t, i - 1);
      var a, b := n - i, n - 1 - i;
      Crossing(t, a, b, d);
      var x := Line(s[i - 1], s[i], d);
      OnSegment(t, b, x);
      LineEitherWay(t[b], t[a], x);
    }
  }

  /** The inverse read at a demand in range, then the table read at what it gives. */
  lemma {:induction false} ReadsBack(t: seq<Point>, d: real)
    requires InOrder(t) && Functional(t) && (Ascending(t) || Descending(t)) && Spans(t, d)
    ensures Interpolate(t, Interpolate(Inverse(t), d)) == d
  {
    hide Interpolate, Inverse, Functional, InOrder, Ascending, Descending;
    SpansEnds(t, d);
    if Ascending(t) { ReadsBackUp(t, d); } else { ReadsBackDown(t, d); }
  }

  lemma {:induction false} SpansEnds(t: seq<Point>, d: real)
    requires Spans(t, d) && (Ascending(t) || Descending(t))
    ensures t != []
    ensures Ascending(t) ==> t[0].y <= d <= t[|t| - 1].y
    ensures !Ascending(t) ==> t[|t| - 1].y <= d <= t[0].y
  {
    hide Ascending, Descending;
    RisesAll(t);
  }

  /** Where a reading falls: at or before the first point, or inside a segment that really rises. */
  lemma {:induction false} Locate(s: seq<Point>, d: real) returns (i: nat)
    requires s != [] && d <= s[|s| - 1].x
    ensures i < |s|
    ensures i == 0 ==> d <= s[0].x && Interpolate(s, d) == s[0].y
    ensures i > 0 ==> s[i - 1].x < d <= s[i].x && Interpolate(s, d) == Line(s[i - 1], s[i], d)
  {
    BisectSplits(s, d);
    i := BisectLeft(s, d);
  }

  /** Between neighbours `a` and `b`, with `a` the lower in demand. */
  lemma {:induction false} Crossing(t: seq<Point>, a: nat, b: nat, d: real)
    requires InOrder(t) && Functional(t) && a < |t| && b < |t| && t[a].y < d <= t[b].y
    ensures var x := Line(Flip(t[a]), Flip(t[b]), d);
      && t[a].x != t[b].x && Line(t[a], t[b], x) == d
      && (a <= b ==> t[a].x <= x <= t[b].x) && (b <= a ==> t[b].x <= x <= t[a].x)
  {
    ThereAndBack(t[a], t[b], d);
    CrossesBetween(t[a], t[b], d);
  }

  lemma {:induction false} LineEitherWay(p: Point, q: Point, x: real)
    requires p.x != q.x
    ensures Line(p, q, x) == Line(q, p, x)
  {
    var w, h, e := q.x - p.x, q.y - p.y, x - p.x;
    var a, b := h * e / w, (p.y - q.y) * (x - q.x) / (p.x - q.x);
    Divides(h * e, w);
    Divides((p.y - q.y) * (x - q.x), p.x - q.x);
    assert b * (p.x - q.x) == -(b * w);
    assert (p.y - q.y) * (x - q.x) == h * w - h * e;
    assert (a - b) * w == h * w;
    Same(a - b, h, w);
  }

  lemma {:induction false} Divides(a: real, w: real)
    requires w != 0.0
    ensures a / w * w == a
  {
  }

  lemma {:induction false} Same(a: real, b: real, w: real)
    requires w != 0.0 && a * w == b * w
    ensures a == b
  {
  }

  // What a feedforward and its inverse give together.

  lemma {:induction false} KeptInOrder(t: seq<Point>)
    requires Ordered(t)
    ensures InOrder(t)
  {
    forall i, j | 0 <= i <= j < |t| ensures t[i].x <= t[j].x { OrderedFrom(t, i, j); }
  }

  lemma {:induction false} OrderedFrom(t: seq<Point>, i: nat, j: nat)
    requires Ordered(t) && i <= j < |t|
    ensures t[i].x <= t[j].x
    decreases j - i
  {
    if i < j { OrderedFrom(t, i, j - 1); }
  }

  /** A jump: two neighbours at one setpoint with different demands. */
  ghost predicate Jumps(t: seq<Point>, k: nat) {
    k + 1 < |t| && t[k].x == t[k + 1].x && t[k].y != t[k + 1].y
  }

  ghost predicate Smooth(t: seq<Point>) {
    forall k: nat :: !Jumps(t, k)
  }

  lemma {:induction false} NoJumpsIsFunctional(t: seq<Point>)
    requires InOrder(t) && Smooth(t)
    ensures Functional(t)
  {
    hide Smooth, InOrder;
    forall i, j | 0 <= i < |t| && 0 <= j < |t| && t[i].x == t[j].x ensures t[i].y == t[j].y {
      if i <= j { Level(t, i, j); } else { Level(t, j, i); }
    }
  }

  lemma {:induction false} Level(t: seq<Point>, i: nat, j: nat)
    requires InOrder(t) && Smooth(t) && i <= j < |t| && t[i].x == t[j].x
    ensures t[i].y == t[j].y
    decreases j - i
  {
    if i < j {
      assert t[i].x == t[i + 1].x && !Jumps(t, i);
      Level(t, i + 1, j);
    }
  }

  /** The demand midway through a jump is one no setpoint gives. */
  lemma {:induction false} JumpIsMissed(t: seq<Point>, k: nat)
    requires InOrder(t) && Ascending(t) && Jumps(t, k)
    ensures var d := (t[k].y + t[k + 1].y) / 2.0;
      Spans(t, d) && Interpolate(t, Interpolate(Inverse(t), d)) < d
  {
    hide Inverse, Ascending, Interpolate, Line;
    RisesAll(t);
    assert t[k].y < t[k + 1].y;
    var d := (t[k].y + t[k + 1].y) / 2.0;
    var s := Inverse(t);
    InverseAt(t, |t| - 1);
    var i := Locate(s, d);
    InverseAt(t, i);
    InverseAt(t, k);
    InverseAt(t, k + 1);
    if i > 0 { InverseAt(t, i - 1); }
    assert i == k + 1 by { LocatedAt(t, s, d, i, k); }
    assert Interpolate(s, d) == t[k].x by { FlatLine(t[k], t[k + 1], d); }
    FirstOf(t, k);
  }

  lemma {:induction false} LocatedAt(t: seq<Point>, s: seq<Point>, d: real, i: nat, k: nat)
    requires Rising(t) && i < |t| && k + 1 < |t| == |s| && t[k].y < d < t[k + 1].y
    requires s[i] == Flip(t[i]) && (i > 0 ==> s[i - 1] == Flip(t[i - 1]) && s[i - 1].x < d <= s[i].x) && (i == 0 ==> d <= s[0].x)
    ensures i == k + 1
  {
  }

  lemma {:induction false} FlatLine(p: Point, q: Point, d: real)
    requires p.x == q.x && p.y != q.y
    ensures Line(Flip(p), Flip(q), d) == p.x
  {
  }

  lemma {:induction false} FirstOf(t: seq<Point>, k: nat)
    requires InOrder(t) && Rising(t) && k < |t|
    ensures Interpolate(t, t[k].x) <= t[k].y
  {
    BisectSplits(t, t[k].x);
    var i := BisectLeft(t, t[k].x);
    assert i <= k && t[i].x == t[k].x;
    if i > 0 { AtEnd(t[i - 1], t[i]); }
  }

  lemma {:induction false} JumpsRise(t: seq<Point>, k: nat)
    requires Ordered(t) && Jumps(t, k) && (Ascending(t) || Descending(t))
    ensures Ascending(t)
  {
  }

  /** For a table whose demands are monotone, evaluating what a demand in range inverts to gives that
      demand back, at any rate, exactly when no setpoint is given two demands. */
  lemma {:induction false} TableEvaluatesItsInverse(f: Feedforward, rate: real)
    requires f.Table? && Valid(f) && (Ascending(f.points) || Descending(f.points))
    ensures (forall demand :: Spans(f.points, demand - Extra(f.rateGain, rate)) ==> EvaluatesBack(f, demand, rate))
       <==> Smooth(f.points)
  {
    hide Interpolate, Ascending, Descending, InOrder, Functional, Ordered, Spans, Inverse;
    var t := f.points;
    KeptInOrder(t);
    if Smooth(t) {
      NoJumpsIsFunctional(t);
      forall demand | Spans(t, demand - Extra(f.rateGain, rate)) ensures EvaluatesBack(f, demand, rate) {
        ReadsBack(t, demand - Extra(f.rateGain, rate));
      }
    } else {
      var k: nat :| Jumps(t, k);
      JumpsRise(t, k);
      JumpIsMissed(t, k);
      var demand := (t[k].y + t[k + 1].y) / 2.0 + Extra(f.rateGain, rate);
      assert demand - Extra(f.rateGain, rate) == (t[k].y + t[k + 1].y) / 2.0;
      assert !EvaluatesBack(f, demand, rate);
    }
  }

  predicate EvaluatesBack(f: Feedforward, demand: real, rate: real)
    requires Valid(f)
  {
    var back := Invert(f, demand, rate);
    back.Aim? && Evaluate(f, back.setpoint, rate) == demand
  }

  ghost predicate StrictlyUp(t: seq<Point>) {
    forall i, j :: 0 <= i < j < |t| ==> t[i].y < t[j].y
  }

  ghost predicate StrictlyDown(t: seq<Point>) {
    forall i, j :: 0 <= i < j < |t| ==> t[i].y > t[j].y
  }

  /** For strictly monotone demands, inverting an evaluation returns any setpoint within the table's
      ends, at any rate: even where one setpoint is given two demands. */
  lemma {:induction false} TableInvertsItsEvaluation(f: Feedforward, setpoint: real, rate: real)
    requires f.Table? && Valid(f) && (StrictlyUp(f.points) || StrictlyDown(f.points))
    requires f.points[0].x <= setpoint <= f.points[|f.points| - 1].x
    ensures Invert(f, Evaluate(f, setpoint, rate), rate) == Aim(setpoint)
  {
    hide Interpolate, Inverse, Ascending, Descending, Ordered;
    var t := f.points;
    KeptInOrder(t);
    RisesAll(t);
    var s := Inverse(t);
    if Ascending(t) { TurnsUp(t); } else { TurnsDown(t); }
    ReadsBack(s, setpoint);
    assert Evaluate(f, setpoint, rate) - Extra(f.rateGain, rate) == Interpolate(t, setpoint);
  }

  /** The inverse of the inverse is the table. */
  lemma {:induction false} TurnsUp(t: seq<Point>)
    requires InOrder(t) && t != [] && Ascending(t) && (StrictlyUp(t) || |t| == 1)
    ensures var s := Inverse(t);
      && InOrder(s) && Functional(s) && Ascending(s) && Inverse(s) == t
      && |s| == |t| && s[0].y == t[0].x && s[|s| - 1].y == t[|t| - 1].x
  {
  }

  lemma {:induction false} TurnsDown(t: seq<Point>)
    requires Ordered(t) && t != [] && !Ascending(t) && StrictlyDown(t)
    ensures var s := Inverse(t);
      && InOrder(s) && Functional(s) && Descending(s) && Inverse(s) == t
      && |s| == |t| && s[|s| - 1].y == t[0].x && s[0].y == t[|t| - 1].x
  {
    hide Ascending, Descending, Ordered, Inverse, InOrder;
    KeptInOrder(t);
    NotLevel(t);
    var n, s := |t|, Inverse(t);
    InverseAt(t, 0);
    InverseAt(t, n - 1);
    forall k | 0 <= k < n ensures s[k] == Flip(t[n - 1 - k]) { InverseAt(t, k); }
    MirroredDown(t, s);
    RisesAll(s);
    assert s[n - 1].y < s[0].y;
    assert !Ascending(s);
    forall k | 0 <= k < n ensures |Inverse(s)| == n && Inverse(s)[k] == t[k] { InverseAt(s, k); }
  }

  lemma {:induction false} MirroredDown(t: seq<Point>, s: seq<Point>)
    requires InOrder(t) && StrictlyDown(t) && |s| == |t| && forall k :: 0 <= k < |t| ==> s[k] == Flip(t[|t| - 1 - k])
    ensures InOrder(s) && Functional(s) && Falling(s)
  {
  }

  lemma {:induction false} NotLevel(t: seq<Point>)
    requires Ordered(t) && t != [] && !Ascending(t)
    ensures t[0].x < t[|t| - 1].x
  {
    var k :| 0 <= k < |t| - 1 && t[k].y > t[k + 1].y;
    KeptInOrder(t);
    assert t[0].x <= t[k].x < t[k + 1].x <= t[|t| - 1].x;
  }

  /** The other feedforwards: each that has an inverse round-trips both ways at any rate. */
  lemma {:induction false} OthersRoundTrip(f: Feedforward, x: real, rate: real)
    requires !f.Table?
    ensures Invert(f, x, rate).NotInvertible? <==> f == NoFeedforward || (f.Affine? && f.gain == 0.0)
    ensures Invert(f, x, rate).Aim? ==>
      EvaluatesBack(f, x, rate) && Invert(f, Evaluate(f, x, rate), rate) == Aim(x)
  {
  }

}
