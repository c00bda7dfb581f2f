/** Reference trajectories (`engine/src/flyball/control/setpoint.py`): ramps, holds and profiles of
    them, nested to any depth. */
module Setpoint {
  import opened Options

  datatype Pace = Speed(perSecond: real) | Taking(seconds: real)

  datatype Generator =
    | Ramp(pace: Pace, end: real)
    | Hold(value: real, duration: Option<real>)
    | Profile(segments: seq<Generator>)

  /** A generator once started. */
  datatype Running =
    | Ramping(target: real, landsAt: real, perSecond: real)
    | Holding(held: real, until: Option<real>)
    | Following(parts: seq<Running>)

  predicate Bounded(g: Generator) {
    match g
    case Ramp(_, _) => true
    case Hold(_, duration) => duration.Some?
    case Profile(segments) => segments != [] && Bounded(segments[|segments| - 1])
  }

  /** What the constructors accept, with durations that are not negative. */
  predicate Accepted(g: Generator) {
    match g
    case Ramp(pace, _) => if pace.Speed? then pace.perSecond > 0.0 else pace.seconds >= 0.0
    case Hold(_, duration) => duration.Some? ==> duration.value >= 0.0
    case Profile(segments) =>
      && segments != []
      && (forall i :: 0 <= i < |segments| ==> Accepted(segments[i]))
      && (forall i :: 0 <= i < |segments| - 1 ==> Bounded(segments[i]))
  }

  function Abs(x: real): real {
    if x < 0.0 then -x else x
  }

  function EndTime(r: Running): Option<real> {
    match r
    case Ramping(_, landsAt, _) => Some(landsAt)
    case Holding(_, until) => until
    case Following(parts) => if parts == [] then None else EndTime(parts[|parts| - 1])
  }

  predicate Finished(r: Running, time: real) {
    match r
    case Ramping(_, landsAt, _) => time >= landsAt
    case Holding(_, until) => until.Some? && time >= until.value
    case Following(parts) => parts != [] && Finished(parts[|parts| - 1], time)
  }

  /** The first part not yet finished, else the last. */
  function InForce(parts: seq<Running>, time: real): nat
    requires parts != []
  {
    if |parts| == 1 || !Finished(parts[0], time) then 0 else 1 + InForce(parts[1..], time)
  }

  lemma {:induction false} InForceIsFirst(parts: seq<Running>, time: real)
    requires parts != []
    ensures var i := InForce(parts, time);
      && i < |parts| && (forall j :: 0 <= j < i ==> Finished(parts[j], time))
      && (i < |parts| - 1 ==> !Finished(parts[i], time))
    decreases |parts|
  {
    if |parts| > 1 && Finished(parts[0], time) { InForceIsFirst(parts[1..], time); }
  }

  function Generate(r: Running, time: real): real {
    match r
    case Ramping(target, landsAt, perSecond) =>
      if time >= landsAt then target else target - (landsAt - time) * perSecond
    case Holding(held, _) => held
    case Following(parts) =>
      if parts == [] then 0.0
      else
        InForceIsFirst(parts, time);
        Generate(parts[InForce(parts, time)], time)
  }

  function Rate(r: Running, time: real): real {
    match r
    case Ramping(_, landsAt, perSecond) => if time >= landsAt then 0.0 else perSecond
    case Holding(_, _) => 0.0
    case Following(parts) =>
      if parts == [] then 0.0
      else
        InForceIsFirst(parts, time);
        Rate(parts[InForce(parts, time)], time)
  }

  function Duration(pace: Pace, span: real): real
    requires pace.Speed? ==> pace.perSecond > 0.0
  {
    if pace.Speed? then Abs(span / pace.perSecond) else pace.seconds
  }

  function Start(g: Generator, time: real, value: real): Running
    requires Accepted(g)
    decreases g, 1, 0
  {
    match g
    case Ramp(pace, end) =>
      var duration := Duration(pace, end - value);
      Ramping(end, time + duration, if duration > 0.0 then (end - value) / duration else 0.0)
    case Hold(held, duration) =>
      Holding(held, if duration.Some? then Some(time + duration.value) else None)
    case Profile(segments) => Following(StartAll(g, 0, time, value))
  }

  /** Each part from where the last one landed; after one that never lands, none. */
  function StartAll(g: Generator, from: nat, time: real, value: real): seq<Running>
    requires Accepted(g) && g.Profile? && from <= |g.segments|
    decreases g, 0, |g.segments| - from
  {
    if from == |g.segments| then []
    else
      var first := Start(g.segments[from], time, value);
      if EndTime(first).None? then [first]
      else [first] + StartAll(g, from + 1, EndTime(first).value, Generate(first, EndTime(first).value))
  }

  // Where a trajectory ends up.

  /** The value it lands at, whatever it started from. */
  function Landing(g: Generator): real {
    match g
    case Ramp(_, end) => end
    case Hold(held, _) => held
    case Profile(segments) => if segments == [] then 0.0 else Landing(segments[|segments| - 1])
  }

  lemma {:induction false} DurationNotNegative(pace: Pace, span: real)
    requires if pace.Speed? then pace.perSecond > 0.0 else pace.seconds >= 0.0
    ensures Duration(pace, span) >= 0.0
  {
  }

  /** Landed is landed: finished is having reached the end time, so it never reverts. */
  lemma {:induction false} FinishedIsLanded(r: Running, time: real)
    ensures Finished(r, time) <==> EndTime(r).Some? && time >= EndTime(r).value
    decreases r
  {
    if r.Following? && r.parts != [] { FinishedIsLanded(r.parts[|r.parts| - 1], time); }
  }

  lemma {:induction false} FinishedNeverReverts(r: Running, time: real, later: real)
    requires Finished(r, time) && time <= later
    ensures Finished(r, later)
  {
    FinishedIsLanded(r, time);
    FinishedIsLanded(r, later);
  }

  /** A started profile: one part for each segment, end times in order, each part started where the one
      before it landed. */
  ghost predicate BackToBack(g: Generator, parts: seq<Running>, time: real, value: real)
    requires Accepted(g) && g.Profile?
  {
    && |parts| == |g.segments|
    && parts[0] == Start(g.segments[0], time, value)
    && forall i :: 0 <= i < |parts| - 1 ==> Follows(g, parts, i)
  }

  ghost predicate Follows(g: Generator, parts: seq<Running>, i: nat)
    requires Accepted(g) && g.Profile? && i + 1 < |parts| == |g.segments|
  {
    && EndTime(parts[i]).Some?
    && var at := EndTime(parts[i]).value;
       && Generate(parts[i], at) == Landing(g.segments[i])
       && parts[i + 1] == Start(g.segments[i + 1], at, Landing(g.segments[i]))
  }

  /** An accepted trajectory lands, if it is bounded, at its landing value, no earlier than it started,
      and stays there. */
  lemma {:induction false} Lands(g: Generator, time: real, value: real, t: real)
    requires Accepted(g)
    ensures var r := Start(g, time, value);
      && (EndTime(r).Some? <==> Bounded(g))
      && (EndTime(r).Some? ==> time <= EndTime(r).value)
      && (Finished(r, t) ==> Generate(r, t) == Landing(g))
      && (r.Following? ==> BackToBack(g, r.parts, time, value))
    decreases g, 1
  {
    match g
    case Ramp(pace, end) => DurationNotNegative(pace, end - value);
    case Hold(held, duration) =>
    case Profile(segments) =>
      var parts := StartAll(g, 0, time, value);
      AllLand(g, 0, time, value);
      var last := |parts| - 1;
      if last > 0 { assert Linked(g, 0, parts, last - 1); }
      var from := if last == 0 then time else EndTime(parts[last - 1]).value;
      var entry := if last == 0 then value else Landing(segments[last - 1]);
      Lands(segments[last], from, entry, t);
      if Finished(Following(parts), t) {
        FinishedIsLanded(Following(parts), t);
        forall i | 0 <= i < last ensures Finished(parts[i], t) {
          assert EndsBy(parts[i], EndTime(parts[last]).value);
          FinishedIsLanded(parts[i], t);
        }
        InForceIsFirst(parts, t);
        assert InForce(parts, t) == last;
      }
      forall i | 0 <= i < |parts| - 1 ensures Follows(g, parts, i) { assert Linked(g, 0, parts, i); }
  }

  predicate EndsBy(r: Running, time: real) {
    EndTime(r).Some? && EndTime(r).value <= time
  }

  ghost predicate Linked(g: Generator, from: nat, parts: seq<Running>, i: nat)
    requires Accepted(g) && g.Profile? && from + |parts| == |g.segments| && i + 1 < |parts|
  {
    && EndTime(parts[i]).Some?
    && var at := EndTime(parts[i]).value;
       && Generate(parts[i], at) == Landing(g.segments[from + i])
       && parts[i + 1] == Start(g.segments[from + i + 1], at, Landing(g.segments[from + i]))
  }

  lemma {:induction false} AllLand(g: Generator, from: nat, time: real, value: real)
    requires Accepted(g) && g.Profile? && from < |g.segments|
    ensures StartAll(g, from, time, value) != []
    ensures var parts := StartAll(g, from, time, value);
      && from + |parts| == |g.segments| && parts[0] == Start(g.segments[from], time, value)
      && (EndTime(parts[|parts| - 1]).Some? ==> time <= EndTime(parts[|parts| - 1]).value)
      && (forall i :: 0 <= i < |parts| - 1 ==> Linked(g, from, parts, i))
      && (forall i :: 0 <= i < |parts| - 1 && EndTime(parts[|parts| - 1]).Some? ==>
            EndsBy(parts[i], EndTime(parts[|parts| - 1]).value))
    decreases g, 0, |g.segments| - from
  {
    hide Duration;
    var first := Start(g.segments[from], time, value);
    var end := EndTime(first);
    Lands(g.segments[from], time, value, if end.Some? then end.value else time);
    if from + 1 < |g.segments| {
      assert Bounded(g.segments[from]);
      FinishedIsLanded(first, end.value);
      AllLand(g, from + 1, end.value, Generate(first, end.value));
      var rest := StartAll(g, from + 1, end.value, Generate(first, end.value));
      var parts := StartAll(g, from, time, value);
      assert parts == [first] + rest;
      forall i | 0 <= i < |parts| - 1 ensures Linked(g, from, parts, i) {
        if i > 0 { assert Linked(g, from + 1, rest, i - 1); }
      }
    } else if end.Some? {
      assert StartAll(g, from + 1, end.value, Generate(first, end.value)) == [];
    }
  }

  /** Each segment starts at the time and value where the one before it landed, and the one in force is
      the one whose time it is: the one before has landed, and it, unless the last, has not. */
  lemma {:induction false} SegmentsMeet(g: Generator, time: real, value: real, t: real)
    requires Accepted(g) && g.Profile?
    ensures var parts := Start(g, time, value).parts;
      && BackToBack(g, parts, time, value)
      && var i := InForce(parts, t);
         && i < |parts| && Generate(Start(g, time, value), t) == Generate(parts[i], t)
         && (forall j :: 0 <= j < i ==> EndsBy(parts[j], t))
         && (i + 1 < |parts| ==> !EndsBy(parts[i], t))
  {
    Lands(g, time, value, t);
    var parts := Start(g, time, value).parts;
    InForceIsFirst(parts, t);
    var i := InForce(parts, t);
    forall j | 0 <= j < i ensures EndsBy(parts[j], t) { FinishedIsLanded(parts[j], t); }
    FinishedIsLanded(parts[i], t);
    if i + 1 < |parts| { assert Follows(g, parts, i); }
  }

  // Nowhere outside what it was asked to pass through.

  ghost predicate Within(g: Generator, low: real, high: real) {
    match g
    case Ramp(_, end) => low <= end <= high
    case Hold(held, _) => low <= held <= high
    case Profile(segments) => forall i :: 0 <= i < |segments| ==> Within(segments[i], low, high)
  }

  lemma {:induction false} LandingWithin(g: Generator, low: real, high: real)
    requires Accepted(g) && Within(g, low, high)
    ensures low <= Landing(g) <= high
    decreases g
  {
    if g.Profile? { LandingWithin(g.segments[|g.segments| - 1], low, high); }
  }

  /** A ramp is on the line from where it started to its end. */
  lemma {:induction false} RampIsLinear(duration: real, time: real, value: real, end: real, t: real) returns (w: real)
    requires duration > 0.0 && time <= t <= time + duration
    ensures 0.0 <= w <= 1.0 && w * duration == time + duration - t
    ensures end - (time + duration - t) * ((end - value) / duration) == end + w * (value - end)
  {
    w := (time + duration - t) / duration;
    var slope := (end - value) / duration;
    assert slope * duration == end - value;
    assert (w * duration) * slope == w * (duration * slope);
  }

  lemma {:induction false} Product(a: real, b: real)
    requires a >= 0.0 && b >= 0.0
    ensures a * b >= 0.0
  {
  }

  lemma {:induction false} Between(w: real, value: real, end: real, low: real, high: real)
    requires 0.0 <= w <= 1.0 && low <= value <= high && low <= end <= high
    ensures low <= end + w * (value - end) <= high
  {
    Product(w, value - low);
    Product(1.0 - w, end - low);
    Product(w, high - value);
    Product(1.0 - w, high - end);
    assert end + w * (value - end) - low == w * (value - low) + (1.0 - w) * (end - low);
    assert high - (end + w * (value - end)) == w * (high - value) + (1.0 - w) * (high - end);
  }

  lemma {:induction false} RampStaysWithin(pace: Pace, end: real, time: real, value: real, t: real, low: real, high: real)
    requires Accepted(Ramp(pace, end)) && low <= end <= high && low <= value <= high && time <= t
    ensures low <= Generate(Start(Ramp(pace, end), time, value), t) <= high
  {
    hide Duration;
    var duration := Duration(pace, end - value);
    DurationNotNegative(pace, end - value);
    if t < time + duration {
      var w := RampIsLinear(duration, time, value, end, t);
      Between(w, value, end, low, high);
    }
  }

  /** From the start on, every value lies within the hull of the start value and the targets, however
      deep the segments are nested. */
  lemma {:induction false} StaysWithin(g: Generator, time: real, value: real, t: real, low: real, high: real)
    requires Accepted(g) && Within(g, low, high) && low <= value <= high && time <= t
    ensures low <= Generate(Start(g, time, value), t) <= high
    decreases g
  {
    hide Duration;
    match g
    case Hold(held, duration) =>
    case Ramp(pace, end) => RampStaysWithin(pace, end, time, value, t, low, high);
    case Profile(segments) =>
      SegmentsMeet(g, time, value, t);
      var parts := Start(g, time, value).parts;
      var i := InForce(parts, t);
      if i == 0 {
        StaysWithin(segments[0], time, value, t, low, high);
      } else {
        assert Follows(g, parts, i - 1);
        LandingWithin(segments[i - 1], low, high);
        StaysWithin(segments[i], EndTime(parts[i - 1]).value, Landing(segments[i - 1]), t, low, high);
      }
  }

  /** A ramp that takes any time leaves from exactly where it was started, at the pace asked for, and
      its rate is how its value moves. */
  lemma {:induction false} RampMovesAtItsRate(pace: Pace, end: real, time: real, value: real, t: real, later: real)
    requires Accepted(Ramp(pace, end)) && time <= t <= later && later < time + Duration(pace, end - value)
    ensures var r := Start(Ramp(pace, end), time, value);
      && Generate(r, time) == value
      && Generate(r, later) - Generate(r, t) == Rate(r, t) * (later - t)
      && (pace.Speed? ==> Abs(Rate(r, t)) == pace.perSecond)
      && Rate(r, t) * Duration(pace, end - value) == end - value
  {
    var span, duration := end - value, Duration(pace, end - value);
    var slope := span / duration;
    Divides(span, duration);
    var lands := time + duration;
    assert (lands - time) * slope == slope * duration;
    assert (lands - t) * slope - (lands - later) * slope == slope * (later - t);
    if pace.Speed? { PaceKept(span, pace.perSecond, duration, slope); }
  }

  /** A ramp given a time lands when that is over; one given a speed, when it has covered the distance at
      it; a hold is where it is told to be from the first, and lands, if ever, when its duration is over. */
  lemma {:induction false} LandsWhen(g: Generator, time: real, value: real, t: real)
    requires Accepted(g) && !g.Profile?
    ensures var r := Start(g, time, value);
      && (g.Ramp? && g.pace.Taking? ==> EndTime(r) == Some(time + g.pace.seconds))
      && (g.Ramp? && g.pace.Speed? ==>
            && EndTime(r).Some?
            && (EndTime(r).value - time) * g.pace.perSecond == if g.end >= value then g.end - value else value - g.end)
      && (g.Ramp? && EndTime(r).Some? && t >= EndTime(r).value ==> Generate(r, t) == g.end && Rate(r, t) == 0.0)
      && (g.Hold? ==> Generate(r, t) == g.value && Rate(r, t) == 0.0)
      && (g.Hold? ==> EndTime(r) == if g.duration.Some? then Some(time + g.duration.value) else None)
  {
    if g.Ramp? && g.pace.Speed? { CoversAtSpeed(g.end - value, g.pace.perSecond); }
  }

  lemma {:induction false} CoversAtSpeed(span: real, perSecond: real)
    requires perSecond > 0.0
    ensures Abs(span / perSecond) * perSecond == if span >= 0.0 then span else -span
  {
    var q := span / perSecond;
    Divides(span, perSecond);
    if q < 0.0 { assert -q * perSecond == -(q * perSecond); }
  }

  lemma {:induction false} Divides(a: real, d: real)
    requires d != 0.0
    ensures a / d * d == a
  {
  }

  lemma {:induction false} PaceKept(span: real, perSecond: real, duration: real, slope: real)
    requires perSecond > 0.0 && duration == Abs(span / perSecond) > 0.0 && slope * duration == span
    ensures Abs(slope) == perSecond
  {
    var q := span / perSecond;
    Divides(span, perSecond);
    if q > 0.0 {
      SameProduct(slope, duration, q, span);
      SameFactor(slope, perSecond, q);
    } else {
      SameProduct(slope, duration, -q, span);
      SameFactor(-slope, perSecond, q);
    }
  }

  lemma {:induction false} SameProduct(a: real, b: real, c: real, p: real)
    requires b == c && a * b == p
    ensures a * c == p
  {
  }

  lemma {:induction false} SameFactor(a: real, b: real, c: real)
    requires c != 0.0 && a * c == b * c
    ensures a == b
  {
  }

  // The code, updating its fields in place, against the functions above.

  class LinearRampSetpoint {
    const pace: Pace
    const end: real
    var endTime: real
    var perSecond: real

    constructor (pace: Pace, end: real)
      ensures this.pace == pace && this.end == end
    {
      this.pace, this.end, endTime, perSecond := pace, end, 0.0, 0.0;
    }

    ghost function View(): Running
      reads this
    {
      Ramping(end, endTime, perSecond)
    }

    method Begin(time: real, value: real)
      requires Accepted(Ramp(pace, end))
      modifies this
      ensures View() == Start(Ramp(pace, end), time, value)
    {
      var span := end - value;
      var duration := if pace.Speed? then Abs(span / pace.perSecond) else pace.seconds;
      endTime := time + duration;
      perSecond := if duration > 0.0 then span / duration else 0.0;
    }

    method At(time: real) returns (value: real)
      ensures value == Generate(View(), time)
    {
      if time >= endTime { return end; }
      return end - (endTime - time) * perSecond;
    }
  }

  lemma {:induction false} EndOfLast(parts: seq<Running>)
    requires parts != []
    ensures EndTime(Following(parts)) == EndTime(parts[|parts| - 1])
  {
  }

  lemma {:induction false} StartedProfile(segments: seq<Generator>, time: real, value: real)
    requires Accepted(Profile(segments))
    ensures Start(Profile(segments), time, value) == Following(StartAll(Profile(segments), 0, time, value))
  {
  }

  lemma {:induction false} StartAllStep(segments: seq<Generator>, i: nat, time: real, value: real)
    requires Accepted(Profile(segments)) && i < |segments|
    ensures Accepted(segments[i])
    ensures var first := Start(segments[i], time, value);
      StartAll(Profile(segments), i, time, value) ==
      if EndTime(first).None? then [first]
      else [first] + StartAll(Profile(segments), i + 1, EndTime(first).value, Generate(first, EndTime(first).value))
  {
  }

  lemma {:induction false} StartAllDone(segments: seq<Generator>, time: real, value: real)
    requires Accepted(Profile(segments))
    ensures segments != [] && StartAll(Profile(segments), |segments|, time, value) == []
  {
  }

  method StartEach(segments: seq<Generator>, time: real, value: real) returns (running: seq<Running>)
    requires Accepted(Profile(segments))
    ensures running == StartAll(Profile(segments), 0, time, value) && running != []
  {
    hide *;
    var at, entry, i := time, value, 0;
    running := [];
    StartAllDone(segments, time, value);
    AllLand(Profile(segments), 0, time, value);
    ghost var whole := StartAll(Profile(segments), 0, time, value);
    while i < |segments|
      invariant i <= |segments| && running + StartAll(Profile(segments), i, at, entry) == whole
    {
      StartAllStep(segments, i, at, entry);
      var first := Start(segments[i], at, entry);
      if EndTime(first).None? {
        running := running + [first];
        return;
      }
      ghost var rest := StartAll(Profile(segments), i + 1, EndTime(first).value, Generate(first, EndTime(first).value));
      assert running + ([first] + rest) == (running + [first]) + rest;
      running := running + [first];
      at, entry := EndTime(first).value, Generate(first, EndTime(first).value);
      i := i + 1;
    }
    StartAllDone(segments, at, entry);
    assert running + [] == running;
  }

  /** Its generators are values here; the segment last asked for is `active`. */
  class ProfileRun {
    const segments: seq<Generator>
    var generators: seq<Running>
    var endTime: Option<real>
    var active: Option<nat>

    constructor (segments: seq<Generator>)
      requires Accepted(Profile(segments))
      ensures this.segments == segments && active == None
    {
      this.segments, generators, endTime, active := segments, [], None, None;
    }

    method Begin(time: real, value: real)
      requires Accepted(Profile(segments))
      modifies this`generators, this`endTime
      ensures Following(generators) == Start(Profile(segments), time, value)
      ensures endTime == EndTime(Following(generators))
    {
      hide *;
      generators := StartEach(segments, time, value);
      EndOfLast(generators);
      StartedProfile(segments, time, value);
      endTime := EndTime(generators[|generators| - 1]);
    }

    method At(time: real) returns (value: real)
      requires generators != []
      modifies this`active
      ensures active == Some(InForce(generators, time)) && value == Generate(Following(generators), time)
    {
      var i := 0;
      assert generators[0..] == generators;
      while i < |generators| - 1 && Finished(generators[i], time)
        invariant i < |generators| && InForce(generators, time) == i + InForce(generators[i..], time)
      {
        assert generators[i..][1..] == generators[i + 1..];
        i := i + 1;
      }
      active := Some(i);
      return Generate(generators[i], time);
    }
  }
}
