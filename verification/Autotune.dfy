/** Autotuning (`engine/src/flyball/autotune/experiments.py`, `engine/src/flyball/autotune/fit.py`): the
    relay experiment, and the window that says a reading has settled. */
module Autotune {
  import opened Options

  function Sum(s: seq<real>): real {
    if s == [] then 0.0 else s[0] + Sum(s[1..])
  }

  function Mean(s: seq<real>): real
    requires s != []
  {
    Sum(s) / |s| as real
  }

  function Max(a: real, b: real): real {
    if b > a then b else a
  }

  function Min(a: real, b: real): real {
    if b < a then b else a
  }

  // The relay.

  datatype Config = Config(centre: real, hysteresis: real, cycles: int, timeout: Option<real>)

  datatype Ultimate = Ultimate(amplitude: real, period: real)

  datatype Relay = Relay(
    high: bool, extreme: real, peaks: seq<real>, troughs: seq<real>, switches: seq<real>,
    started: Option<real>, result: Option<Ultimate>)

  const READY := Relay(true, 0.0, [], [], [], None, None)

  datatype Verdict = Fine | TooSmall | NothingToAverage | TimedOut

  datatype Stepped = Stepped(relay: Relay, verdict: Verdict)

  function Differences(s: seq<real>): seq<real> {
    seq(if |s| > 2 then |s| - 2 else 0, i requires 0 <= i < (if |s| > 2 then |s| - 2 else 0) => s[i + 2] - s[i])
  }

  function Tail(s: seq<real>): seq<real> {
    if s == [] then [] else s[1..]
  }

  function Evaluate(c: Config, r: Relay): Stepped {
    if |r.peaks| < c.cycles + 1 || |r.troughs| < c.cycles + 1 then Stepped(r, Fine)
    else if Tail(r.peaks) == [] || Tail(r.troughs) == [] then Stepped(r, NothingToAverage)
    else
      var amplitude := (Mean(Tail(r.peaks)) - Mean(Tail(r.troughs))) / 2.0;
      if amplitude <= c.hysteresis then Stepped(r, TooSmall)
      else
        var periods := Differences(Tail(r.switches));
        if periods == [] then Stepped(r, NothingToAverage)
        else Stepped(r.(result := Some(Ultimate(amplitude, Mean(periods)))), Fine)
  }

  function Switched(c: Config, high: bool, reading: real): bool {
    if reading < c.centre - c.hysteresis then true
    else if reading > c.centre + c.hysteresis then false
    else high
  }

  function Began(c: Config, r: Relay, time: real, reading: real): Relay {
    if r.started.None? then r.(started := Some(time), high := reading < c.centre, extreme := reading) else r
  }

  /** The extreme belongs to the phase just ending. */
  function Turned(r: Relay, time: real, reading: real): Relay {
    r.(high := !r.high, extreme := reading, switches := r.switches + [time],
       troughs := if r.high then r.troughs + [r.extreme] else r.troughs,
       peaks := if r.high then r.peaks else r.peaks + [r.extreme])
  }

  function Followed(r: Relay, reading: real): Relay {
    r.(extreme := if r.high then Min(r.extreme, reading) else Max(r.extreme, reading))
  }

  function Timed(c: Config, r: Relay, time: real): Stepped {
    if r.result.None? && c.timeout.Some? && r.started.Some? && time - r.started.value > c.timeout.value
    then Stepped(r, TimedOut) else Stepped(r, Fine)
  }

  function Step(c: Config, r: Relay, time: real, reading: real): Stepped {
    if r.result.Some? then Stepped(r, Fine)
    else
      var begun := Began(c, r, time, reading);
      if Switched(c, begun.high, reading) == begun.high then Timed(c, Followed(begun, reading), time)
      else
        var e := Evaluate(c, Turned(begun, time, reading));
        if e.verdict != Fine then e else Timed(c, Followed(e.relay, reading), time)
  }

  // What every reading keeps.

  /** Which way it was driven first. */
  predicate First(r: Relay) {
    r.high == (|r.switches| % 2 == 0)
  }

  /** Peaks and troughs alternate: each switch ends one phase, and adds one of the two in turn. */
  predicate Alternates(r: Relay) {
    var n := |r.switches|;
    if First(r) then |r.troughs| == (n + 1) / 2 && |r.peaks| == n / 2
    else |r.peaks| == (n + 1) / 2 && |r.troughs| == n / 2
  }

  /** All but the extreme of the first phase are beyond the dead band. */
  ghost predicate Clears(c: Config, r: Relay) {
    && (forall i :: (if First(r) then 0 else 1) <= i < |r.peaks| ==> r.peaks[i] > c.centre + c.hysteresis)
    && (forall i :: (if First(r) then 1 else 0) <= i < |r.troughs| ==> r.troughs[i] < c.centre - c.hysteresis)
    && (r.switches != [] ==> if r.high then r.extreme < c.centre - c.hysteresis else r.extreme > c.centre + c.hysteresis)
  }

  ghost predicate Ordered(r: Relay, now: real) {
    && (forall i, j :: 0 <= i < j < |r.switches| ==> r.switches[i] < r.switches[j])
    && (forall i :: 0 <= i < |r.switches| ==> r.switches[i] <= now)
  }

  ghost predicate Sound(c: Config, r: Relay, now: real) {
    && Alternates(r) && Clears(c, r) && Ordered(r, now)
    && (r.started.None? ==> r.switches == [])
    && (r.result.Some? ==> r.result.value.amplitude > c.hysteresis && r.result.value.period > 0.0)
  }

  lemma {:induction false} SumAbove(s: seq<real>, low: real)
    requires s != [] && forall i :: 0 <= i < |s| ==> s[i] > low
    ensures Mean(s) > low
  {
    SumBounds(s, low);
  }

  lemma {:induction false} SumBounds(s: seq<real>, low: real)
    requires s != [] && forall i :: 0 <= i < |s| ==> s[i] > low
    ensures Sum(s) > |s| as real * low
    decreases |s|
  {
    if |s| == 1 {
    } else {
      SumBounds(s[1..], low);
    }
  }

  lemma {:induction false} SumBelow(s: seq<real>, high: real)
    requires s != [] && forall i :: 0 <= i < |s| ==> s[i] < high
    ensures Mean(s) < high
  {
    var negated := seq(|s|, i requires 0 <= i < |s| => -s[i]);
    SumAbove(negated, -high);
    SumNegates(s, negated);
    MeanNegates(Sum(s), |s| as real);
  }

  lemma {:induction false} SumNegates(s: seq<real>, t: seq<real>)
    requires |s| == |t| && forall i :: 0 <= i < |s| ==> t[i] == -s[i]
    ensures Sum(t) == -Sum(s)
    decreases |s|
  {
    if s != [] { SumNegates(s[1..], t[1..]); }
  }

  lemma {:induction false} MeanNegates(sum: real, n: real)
    requires n > 0.0
    ensures -sum / n == -(sum / n)
  {
  }

  /** Once there are cycles enough, the amplitude is beyond the dead band and there are periods, all
      positive, to average: neither error can come. */
  lemma {:induction false} EvaluatesWell(c: Config, r: Relay, now: real)
    requires Sound(c, r, now) && r.result.None? && c.cycles >= 1
    ensures Evaluate(c, r).verdict == Fine && Sound(c, Evaluate(c, r).relay, now)
  {
    if |r.peaks| >= c.cycles + 1 && |r.troughs| >= c.cycles + 1 {
      SumAbove(Tail(r.peaks), c.centre + c.hysteresis);
      SumBelow(Tail(r.troughs), c.centre - c.hysteresis);
      var periods := Differences(Tail(r.switches));
      SumAbove(periods, 0.0);
    }
  }

  lemma {:induction false} TurnKeepsSound(c: Config, r: Relay, time: real, reading: real, now: real)
    requires Sound(c, r, now) && r.started.Some? && (now < time || r.switches == [])
    requires Switched(c, r.high, reading) != r.high && c.hysteresis >= 0.0
    ensures Sound(c, Turned(r, time, reading), time)
  {
  }

  lemma {:induction false} StepKeepsSound(c: Config, r: Relay, now: real, time: real, reading: real)
    requires Sound(c, r, now) && c.hysteresis >= 0.0 && c.cycles >= 1 && (r.started.None? || now < time)
    ensures var s := Step(c, r, time, reading);
      && Sound(c, s.relay, time) && (s.verdict == Fine || s.verdict == TimedOut)
      && (r.result.None? ==> s.relay.started.Some?)
      && (r.result.Some? ==> s.relay == r)
  {
    hide Evaluate, Sound, Turned, Followed;
    if r.result.Some? {
      SoundLater(c, r, now, time);
    } else {
      var begun := Began(c, r, time, reading);
      BeganKeepsSound(c, r, now, time, reading);
      FollowKeeps(begun, reading);
      if Switched(c, begun.high, reading) == begun.high {
        FollowKeepsSound(c, begun, reading, time, if r.started.None? then time else now);
      } else {
        TurnKeepsSound(c, begun, time, reading, if r.started.None? then time else now);
        var t := Turned(begun, time, reading);
        TurnKeeps(begun, time, reading);
        EvaluatesWell(c, t, time);
        EvaluateKeeps(c, t);
        FollowKeeps(Evaluate(c, t).relay, reading);
        FollowKeepsSound(c, Evaluate(c, t).relay, reading, time, time);
      }
    }
  }

  lemma {:induction false} BeganKeepsSound(c: Config, r: Relay, now: real, time: real, reading: real)
    requires Sound(c, r, now)
    ensures Sound(c, Began(c, r, time, reading), if r.started.None? then time else now)
    ensures r.started.None? ==> r.switches == []
  {
  }

  lemma {:induction false} SoundLater(c: Config, r: Relay, now: real, time: real)
    requires Sound(c, r, now) && (r.started.None? || now <= time)
    ensures Sound(c, r, time)
  {
  }

  lemma {:induction false} FollowKeeps(r: Relay, reading: real)
    ensures Followed(r, reading) == r.(extreme := Followed(r, reading).extreme)
  {
  }

  lemma {:induction false} TurnKeeps(r: Relay, time: real, reading: real)
    ensures Turned(r, time, reading).started == r.started && Turned(r, time, reading).result == r.result
  {
  }

  lemma {:induction false} EvaluateKeeps(c: Config, r: Relay)
    ensures Evaluate(c, r).relay == r.(result := Evaluate(c, r).relay.result) && Evaluate(c, r).verdict != TimedOut
  {
  }

  lemma {:induction false} FollowKeepsSound(c: Config, r: Relay, reading: real, time: real, now: real)
    requires Sound(c, r, now) && now <= time
    ensures Sound(c, Followed(r, reading), time)
  {
  }

  // Every run of readings at increasing times.

  datatype Reading = Reading(time: real, value: real)

  function Run(c: Config, readings: seq<Reading>): Relay {
    if readings == [] then READY
    else
      var last := readings[|readings| - 1];
      Step(c, Run(c, readings[..|readings| - 1]), last.time, last.value).relay
  }

  ghost predicate Increasing(readings: seq<Reading>) {
    forall i, j :: 0 <= i < j < |readings| ==> readings[i].time < readings[j].time
  }

  lemma {:induction false} RunIsSound(c: Config, readings: seq<Reading>)
    requires c.hysteresis >= 0.0 && c.cycles >= 1 && Increasing(readings) && readings != []
    ensures Sound(c, Run(c, readings), readings[|readings| - 1].time)
    ensures Run(c, readings).started.Some? || Run(c, readings).result.Some?
    decreases |readings|
  {
    hide Step, Sound;
    var n := |readings| - 1;
    if n == 0 {
      ReadyIsSound(c, readings[0].time);
      assert Run(c, readings[..0]) == READY;
    } else {
      RunIsSound(c, readings[..n]);
      assert readings[..n][n - 1].time < readings[n].time;
    }
    StepKeepsSound(c, Run(c, readings[..n]), if n == 0 then readings[0].time else readings[n - 1].time, readings[n].time, readings[n].value);
  }

  lemma {:induction false} ReadyIsSound(c: Config, now: real)
    ensures Sound(c, READY, now)
  {
  }

  /** For a dead band that is not negative and at least one cycle, whatever the readings: peaks and
      troughs alternate, all but the first extreme are beyond the band, no step fails but by the
      timeout, and a result has an amplitude beyond the dead band and a positive period. */
  lemma {:induction false} RelayNeverFails(c: Config, readings: seq<Reading>, time: real, reading: real)
    requires c.hysteresis >= 0.0 && c.cycles >= 1 && Increasing(readings + [Reading(time, reading)])
    ensures var r := Run(c, readings);
      && Alternates(r) && Clears(c, r)
      && Step(c, r, time, reading).verdict in {Fine, TimedOut}
      && (r.result.Some? ==>
            r.result.value.period > 0.0 && r.result.value.amplitude > c.hysteresis
            && Beyond(r.result.value.amplitude, c.hysteresis) > 0.0)
  {
    hide Step, Sound, Alternates, Clears;
    var all := readings + [Reading(time, reading)];
    var r := Run(c, readings);
    var now := if readings == [] then time else readings[|readings| - 1].time;
    if readings == [] {
      ReadyIsSound(c, time);
    } else {
      assert forall i :: 0 <= i < |readings| ==> all[i] == readings[i];
      RunIsSound(c, readings);
      assert all[|readings| - 1].time < all[|readings|].time;
    }
    SoundMeans(c, r, now);
    StepKeepsSound(c, r, now, time, reading);
  }

  lemma {:induction false} SoundMeans(c: Config, r: Relay, now: real)
    requires Sound(c, r, now) && c.hysteresis >= 0.0
    ensures Alternates(r) && Clears(c, r)
    ensures r.result.Some? ==>
      r.result.value.period > 0.0 && r.result.value.amplitude > c.hysteresis
      && Beyond(r.result.value.amplitude, c.hysteresis) > 0.0
  {
    if r.result.Some? {
      var a, h := r.result.value.amplitude, c.hysteresis;
      Squares(a, h);
    }
  }

  function Times(a: real, b: real): real {
    a * b
  }

  /** What is left under the root once the dead band is taken out. */
  function Beyond(a: real, h: real): real {
    Times(a, a) - Times(h, h)
  }

  lemma {:induction false} Squares(a: real, h: real)
    requires a > h >= 0.0
    ensures Beyond(a, h) > 0.0
  {
    hide Times;
    PositiveTimes(a - h, a + h);
    Factors(a, h);
  }

  lemma {:induction false} PositiveTimes(a: real, b: real)
    requires a > 0.0 && b > 0.0
    ensures Times(a, b) > 0.0
  {
  }

  lemma {:induction false} Factors(a: real, h: real)
    ensures Times(a, a) - Times(h, h) == Times(a - h, a + h)
  {
  }

  // With no cycle to average over it does fail.

  function Next(c: Config, readings: seq<Reading>): Stepped
    requires readings != []
  {
    var last := readings[|readings| - 1];
    Step(c, Run(c, readings[..|readings| - 1]), last.time, last.value)
  }

  /** A run in which the last reading, and no other, fails: on an empty mean. */
  ghost predicate EmptyMean(c: Config, readings: seq<Reading>) {
    && readings != [] && Increasing(readings) && Next(c, readings).verdict == NothingToAverage
    && forall n :: 0 < n < |readings| ==> Next(c, readings[..n]).verdict == Fine
  }

  /** A mean of nothing comes in some run exactly when `cycles` is below one. */
  lemma {:induction false} EmptyMeanIff(c: Config)
    requires c.hysteresis >= 0.0 && (c.timeout.Some? ==> c.timeout.value > 0.0)
    ensures c.cycles >= 1 <==> !exists readings :: EmptyMean(c, readings)
  {
    if c.cycles >= 1 {
      forall readings ensures !EmptyMean(c, readings) {
        if EmptyMean(c, readings) { NoEmptyMean(c, readings); }
      }
    } else {
      var readings := NoCyclesFails(c);
    }
  }

  lemma {:induction false} NoEmptyMean(c: Config, readings: seq<Reading>)
    requires c.hysteresis >= 0.0 && c.cycles >= 1 && readings != [] && Increasing(readings)
    ensures Next(c, readings).verdict != NothingToAverage
  {
    hide Step, Run;
    var n := |readings| - 1;
    var last := readings[n];
    assert readings == readings[..n] + [Reading(last.time, last.value)];
    RelayNeverFails(c, readings[..n], last.time, last.value);
  }

  /** From the first reading on: below the band, above it, and below it again, as far apart as the timeout
      allows. For `cycles` of zero the third fails, and for less the second. */
  lemma {:induction false} NoCyclesFails(c: Config) returns (readings: seq<Reading>)
    requires c.hysteresis >= 0.0 && c.cycles <= 0 && (c.timeout.Some? ==> c.timeout.value > 0.0)
    ensures EmptyMean(c, readings)
  {
    hide Evaluate, Mean, Differences;
    var dt := if c.timeout.Some? then c.timeout.value / 4.0 else 1.0;
    var low, high := c.centre - c.hysteresis - 1.0, c.centre + c.hysteresis + 1.0;
    var a, b, d := Reading(0.0, low), Reading(dt, high), Reading(2.0 * dt, low);
    var r1 := Relay(true, low, [], [], [], Some(0.0), None);
    var r2 := Relay(false, high, [], [low], [dt], Some(0.0), None);
    assert Step(c, READY, 0.0, low) == Stepped(r1, Fine);
    NoneToAverage(c, r2);
    assert [a][..0] == [] && [a, b][..1] == [a] && [a, b, d][..2] == [a, b] && [a, b, d][..1] == [a];
    assert Run(c, []) == READY;
    assert Run(c, [a]) == r1 && Next(c, [a]).verdict == Fine;
    assert Turned(r1, dt, high) == r2;
    if c.cycles < 0 {
      readings := [a, b];
    } else {
      assert Step(c, r1, dt, high) == Stepped(r2, Fine);
      assert Run(c, [a, b]) == r2 && Next(c, [a, b]).verdict == Fine;
      NoneToAverage(c, Turned(r2, 2.0 * dt, low));
      readings := [a, b, d];
    }
  }

  lemma {:induction false} NoneToAverage(c: Config, r: Relay)
    requires c.cycles <= 0 && |r.troughs| == 1 && (if c.cycles < 0 then r.peaks == [] else |r.peaks| <= 1)
    ensures Evaluate(c, r) == Stepped(r, if c.cycles < 0 || |r.peaks| == 1 then NothingToAverage else Fine)
  {
  }

  // What a result says.

  lemma {:induction false} MeanBetween(s: seq<real>, low: real, high: real)
    requires s != [] && forall i :: 0 <= i < |s| ==> low <= s[i] <= high
    ensures low <= Mean(s) <= high
  {
    SumBetween(s, low, high);
    Averages(Sum(s), |s| as real, low, high);
  }

  lemma {:induction false} SumBetween(s: seq<real>, low: real, high: real)
    requires forall i :: 0 <= i < |s| ==> low <= s[i] <= high
    ensures Times(|s| as real, low) <= Sum(s) <= Times(|s| as real, high)
    decreases |s|
  {
    OneMoreTimes(|s| as real - 1.0, low);
    OneMoreTimes(|s| as real - 1.0, high);
    if s != [] {
      hide Times;
      SumBetween(s[1..], low, high);
      assert |s[1..]| as real == |s| as real - 1.0;
    }
  }

  lemma {:induction false} OneMoreTimes(n: real, x: real)
    ensures Times(n + 1.0, x) == Times(n, x) + x && Times(0.0, x) == 0.0
  {
  }

  lemma {:induction false} Averages(sum: real, n: real, low: real, high: real)
    requires n > 0.0 && Times(n, low) <= sum <= Times(n, high)
    ensures low <= sum / n <= high
  {
    var mean := sum / n;
    assert mean * n == sum;
    if mean < low { PositiveTimes(n, low - mean); }
    if mean > high { PositiveTimes(n, mean - high); }
  }

  /** Enough phases of both kinds, the first of each left aside. */
  predicate Enough(c: Config, r: Relay) {
    |r.peaks| >= c.cycles + 1 && |r.troughs| >= c.cycles + 1
  }

  /** The result comes with the cycles asked for, and not before. Its amplitude is half of a swing between
      the peaks and the troughs, the first of each left aside, and its period a time from one switch to the
      next of the same kind: each within the range of those measured. */
  lemma {:induction false} ResultIsMeasured(c: Config, r: Relay, now: real, swings: (real, real), gaps: (real, real))
    requires Sound(c, r, now) && r.result.None? && c.cycles >= 1
    requires forall i, j :: 1 <= i < |r.peaks| && 1 <= j < |r.troughs| ==> swings.0 <= r.peaks[i] - r.troughs[j] <= swings.1
    requires forall i :: 1 <= i && i + 2 < |r.switches| ==> gaps.0 <= r.switches[i + 2] - r.switches[i] <= gaps.1
    ensures var result := Evaluate(c, r).relay.result;
      && (result.Some? <==> Enough(c, r))
      && (result.Some? ==>
            && swings.0 / 2.0 <= result.value.amplitude <= swings.1 / 2.0
            && gaps.0 <= result.value.period <= gaps.1)
  {
    EvaluatesWell(c, r, now);
    if Enough(c, r) {
      hide Clears, Ordered, Mean;
      var (peaks, troughs, periods) := (Tail(r.peaks), Tail(r.troughs), Differences(Tail(r.switches)));
      assert |peaks| > 0 && |troughs| > 0 && |periods| > 0;
      forall i | 0 <= i < |periods| ensures gaps.0 <= periods[i] <= gaps.1 {
        assert periods[i] == r.switches[i + 1 + 2] - r.switches[i + 1];
      }
      MeanBetween(periods, gaps.0, gaps.1);
      MeansApart(peaks, troughs, swings.0, swings.1);
    }
  }

  /** Every difference within bounds, so is that of the means. */
  lemma {:induction false} MeansApart(s: seq<real>, t: seq<real>, low: real, high: real)
    requires s != [] && t != []
    requires forall i, j :: 0 <= i < |s| && 0 <= j < |t| ==> low <= s[i] - t[j] <= high
    ensures low <= Mean(s) - Mean(t) <= high
  {
    hide Mean;
    forall j | 0 <= j < |t| ensures Mean(s) - high <= t[j] <= Mean(s) - low {
      MeanBetween(s, low + t[j], high + t[j]);
    }
    MeanBetween(t, Mean(s) - high, Mean(s) - low);
  }

  /** Of a steady oscillation it is the half swing and the period. */
  lemma {:induction false} SteadyOscillation(c: Config, r: Relay, now: real, peak: real, trough: real, period: real)
    requires Sound(c, r, now) && r.result.None? && c.cycles >= 1 && Enough(c, r)
    requires forall i :: 1 <= i < |r.peaks| ==> r.peaks[i] == peak
    requires forall i :: 1 <= i < |r.troughs| ==> r.troughs[i] == trough
    requires forall i :: 1 <= i && i + 2 < |r.switches| ==> r.switches[i + 2] - r.switches[i] == period
    ensures Evaluate(c, r).relay.result == Some(Ultimate((peak - trough) / 2.0, period))
  {
    hide Sound, Evaluate;
    ResultIsMeasured(c, r, now, (peak - trough, peak - trough), (period, period));
  }

  // What it measures.

  ghost predicate Least(x: real, readings: seq<Reading>) {
    && (forall i :: 0 <= i < |readings| ==> x <= readings[i].value)
    && exists i :: 0 <= i < |readings| && readings[i].value == x
  }

  ghost predicate Greatest(x: real, readings: seq<Reading>) {
    && (forall i :: 0 <= i < |readings| ==> x >= readings[i].value)
    && exists i :: 0 <= i < |readings| && readings[i].value == x
  }

  /** The phase under way began with the reading at `from`, and its extreme is the lowest since, driving
      up, or the highest, driving down. */
  ghost predicate Tracks(r: Relay, readings: seq<Reading>, from: nat) {
    && from < |readings| && r.started == Some(readings[0].time)
    && (if r.switches == [] then from == 0 else readings[from].time == r.switches[|r.switches| - 1])
    && (if r.high then Least(r.extreme, readings[from..]) else Greatest(r.extreme, readings[from..]))
  }

  lemma {:induction false} OneReading(x: Reading, readings: seq<Reading>)
    requires readings == [x]
    ensures Least(x.value, readings) && Greatest(x.value, readings) && Min(x.value, x.value) == Max(x.value, x.value) == x.value
  {
    assert readings[0].value == x.value;
  }

  lemma {:induction false} OneMore(e: real, readings: seq<Reading>, x: Reading)
    ensures Least(e, readings) ==> Least(Min(e, x.value), readings + [x])
    ensures Greatest(e, readings) ==> Greatest(Max(e, x.value), readings + [x])
  {
    var all := readings + [x];
    assert all[|readings|] == x;
    if i :| 0 <= i < |readings| && readings[i].value == e { assert all[i].value == e; }
  }

  /** A switch records the extreme of the phase it ends, as a trough if that was driving up and as a peak if
      down, at its own time; nothing else is ever recorded. */
  lemma {:induction false} RunTracks(c: Config, readings: seq<Reading>) returns (from: nat)
    requires readings != [] && c.hysteresis >= 0.0
    ensures Run(c, readings).result.None? ==> Tracks(Run(c, readings), readings, from)
    decreases |readings|
  {
    var n := |readings| - 1;
    var x := readings[n];
    from := 0;
    if n == 0 {
      FirstTracks(c, readings);
    } else {
      var before := RunTracks(c, readings[..n]);
      var r := Run(c, readings[..n]);
      if r.result.None? {
        assert readings[..n] + [x] == readings;
        from := StepTracks(c, r, readings[..n], x, before);
      }
    }
  }

  lemma {:induction false} FirstTracks(c: Config, readings: seq<Reading>)
    requires |readings| == 1 && c.hysteresis >= 0.0
    ensures Tracks(Run(c, readings), readings, 0)
  {
    hide Evaluate;
    var x := readings[0];
    assert readings[..0] == [] && readings[0..] == [x] && readings == [x];
    assert Run(c, readings) == Step(c, READY, x.time, x.value).relay;
    OneReading(x, [x]);
  }

  /** The first reading says which way to drive: up from below the centre, down from it and above. */
  lemma {:induction false} FirstDrivesToCentre(c: Config, x: Reading)
    requires c.hysteresis >= 0.0
    ensures Run(c, [x]).high <==> x.value < c.centre
    ensures Run(c, [x]).started == Some(x.time) && Run(c, [x]).switches == [] && Run(c, [x]).result.None?
  {
    hide Evaluate;
    assert [x][..0] == [];
    assert Run(c, [x]) == Step(c, READY, x.time, x.value).relay;
  }

  lemma {:induction false} StepTracks(c: Config, r: Relay, readings: seq<Reading>, x: Reading, before: nat)
      returns (from: nat)
    requires r.result.None? && Tracks(r, readings, before)
    ensures Tracks(Step(c, r, x.time, x.value).relay, readings + [x], from)
  {
    hide Evaluate, Least, Greatest;
    var all := readings + [x];
    if Switched(c, r.high, x.value) == r.high {
      from := before;
      assert all[from..] == readings[from..] + [x];
      OneMore(r.extreme, readings[from..], x);
    } else {
      from := |readings|;
      assert all[from..] == [x];
      EvaluateKeeps(c, Turned(r, x.time, x.value));
      OneReading(x, [x]);
    }
  }

  /** What the step after a run records. */
  lemma {:induction false} RecordsExtremes(c: Config, readings: seq<Reading>, x: Reading) returns (from: nat)
    requires readings != [] && c.hysteresis >= 0.0 && Run(c, readings).result.None?
    ensures var (r, r') := (Run(c, readings), Step(c, Run(c, readings), x.time, x.value).relay);
      && Tracks(r, readings, from)
      && (r'.switches == r.switches ==> r'.peaks == r.peaks && r'.troughs == r.troughs && r'.high == r.high)
      && (r'.switches != r.switches ==>
            && r'.switches == r.switches + [x.time] && r'.high == !r.high
            && (r.high ==>
                  && x.value > c.centre + c.hysteresis && r'.peaks == r.peaks
                  && |r'.troughs| == |r.troughs| + 1 && r'.troughs[..|r.troughs|] == r.troughs
                  && Least(r'.troughs[|r.troughs|], readings[from..]))
            && (!r.high ==>
                  && x.value < c.centre - c.hysteresis && r'.troughs == r.troughs
                  && |r'.peaks| == |r.peaks| + 1 && r'.peaks[..|r.peaks|] == r.peaks
                  && Greatest(r'.peaks[|r.peaks|], readings[from..])))
  {
    hide Evaluate, Least, Greatest, Run;
    from := RunTracks(c, readings);
    EvaluateKeeps(c, Turned(Run(c, readings), x.time, x.value));
  }

  /** A step times out exactly when there is a limit, no result yet, and longer than that since the first
      reading. */
  lemma {:induction false} TimesOutIff(c: Config, readings: seq<Reading>, time: real, reading: real)
    requires c.hysteresis >= 0.0 && c.cycles >= 1 && Increasing(readings + [Reading(time, reading)])
    ensures var s := Step(c, Run(c, readings), time, reading);
      s.verdict == TimedOut <==>
        && c.timeout.Some? && s.relay.result.None?
        && time - (if readings == [] then time else readings[0].time) > c.timeout.value
  {
    hide Evaluate, Run, Increasing, Alternates, Clears;
    RelayNeverFails(c, readings, time, reading);
    var r := Run(c, readings);
    var begun := Began(c, r, time, reading);
    EvaluateKeeps(c, Turned(begun, time, reading));
    if readings == [] {
      EmptyRun(c);
    } else if r.result.None? {
      var from := RunTracks(c, readings);
    }
  }

  lemma {:induction false} EmptyRun(c: Config)
    ensures Run(c, []) == READY
  {
  }

  // The window that says a reading has settled.

  datatype Value = Finite(value: real) | NotFinite

  datatype Sample = Sample(time: real, value: Value)

  /** `push` keeps one sample older than the window. */
  function Trimmed(samples: seq<Sample>, time: real, window: real): seq<Sample> {
    if |samples| > 1 && time - samples[1].time >= window then Trimmed(samples[1..], time, window) else samples
  }

  function AllFinite(samples: seq<Sample>): bool {
    forall i :: 0 <= i < |samples| ==> samples[i].value.Finite?
  }

  function Highest(samples: seq<Sample>): real
    requires samples != [] && AllFinite(samples)
    decreases |samples|
  {
    if |samples| == 1 then samples[0].value.value else Max(samples[0].value.value, Highest(samples[1..]))
  }

  function Lowest(samples: seq<Sample>): real
    requires samples != [] && AllFinite(samples)
    decreases |samples|
  {
    if |samples| == 1 then samples[0].value.value else Min(samples[0].value.value, Lowest(samples[1..]))
  }

  predicate Settled(samples: seq<Sample>, time: real, window: real, band: real) {
    && samples != [] && time - samples[0].time >= window && AllFinite(samples)
    && Highest(samples) - Lowest(samples) <= band
  }

  /** The deque after a history of readings. */
  function Held(history: seq<Sample>, window: real): seq<Sample> {
    if history == [] then []
    else
      var last := history[|history| - 1];
      Trimmed(Held(history[..|history| - 1], window) + [last], last.time, window)
  }

  ghost predicate NotBackwards(history: seq<Sample>) {
    forall i, j :: 0 <= i <= j < |history| ==> history[i].time <= history[j].time
  }

  /** Where the last `window` seconds begin: the latest reading at least that old, or the first. */
  ghost predicate Begins(history: seq<Sample>, window: real, k: nat) {
    && k < |history|
    && (k > 0 ==> history[|history| - 1].time - history[k].time >= window)
    && (forall j :: k < j < |history| ==> history[|history| - 1].time - history[j].time < window)
  }

  /** What the whole history says, with no deque: the stretch since the latest reading at least a
      window old spans the window, is all finite, and stays in the band. */
  ghost predicate Steady(history: seq<Sample>, window: real, band: real) {
    && history != []
    && exists k :: Begins(history, window, k) && Flat(history, window, band, k)
  }

  ghost predicate Flat(history: seq<Sample>, window: real, band: real, k: nat) {
    && k < |history|
    && history[|history| - 1].time - history[k].time >= window
    && (forall i :: k <= i < |history| ==> history[i].value.Finite?)
    && (forall i, j :: k <= i < |history| && k <= j < |history| && history[i].value.Finite? && history[j].value.Finite? ==>
          history[i].value.value - history[j].value.value <= band)
  }

  lemma {:induction false} TrimmedIsSuffix(samples: seq<Sample>, time: real, window: real) returns (k: nat)
    requires samples != []
    ensures k < |samples| && Trimmed(samples, time, window) == samples[k..]
    ensures k > 0 ==> time - samples[k].time >= window
    ensures k + 1 < |samples| ==> time - samples[k + 1].time < window
    decreases |samples|
  {
    if |samples| > 1 && time - samples[1].time >= window {
      var more := TrimmedIsSuffix(samples[1..], time, window);
      k := more + 1;
      assert samples[1..][more..] == samples[k..];
    } else {
      k := 0;
      assert samples[0..] == samples;
    }
  }

  /** One push: the deque was the history from `base`, which the new reading leaves no later. */
  lemma {:induction false} PushMoves(history: seq<Sample>, window: real, base: nat) returns (k: nat)
    requires history != [] && NotBackwards(history) && window > 0.0 && base < |history|
    requires base > 0 ==> history[|history| - 1].time - history[base].time >= window
    ensures Begins(history, window, k) && Trimmed(history[base..], history[|history| - 1].time, window) == history[k..]
  {
    hide Trimmed;
    var last := history[|history| - 1];
    var from := history[base..];
    var more := TrimmedIsSuffix(from, last.time, window);
    k := base + more;
    assert from[more..] == history[k..] && from[more] == history[k];
    if k + 1 < |history| {
      assert from[more + 1] == history[k + 1];
      forall j | k < j < |history| ensures last.time - history[j].time < window {
        assert history[k + 1].time <= history[j].time;
      }
    }
  }

  lemma {:induction false} NotBackwardsBefore(history: seq<Sample>)
    requires NotBackwards(history) && history != []
    ensures NotBackwards(history[..|history| - 1])
    ensures |history| > 1 ==> history[|history| - 2].time <= history[|history| - 1].time
  {
  }

  /** The deque is the history from where the window begins. */
  lemma {:induction false} HeldIsTheWindow(history: seq<Sample>, window: real) returns (k: nat)
    requires history != [] && NotBackwards(history) && window > 0.0
    ensures Begins(history, window, k) && Held(history, window) == history[k..]
    decreases |history|
  {
    hide NotBackwards, Trimmed;
    var n := |history| - 1;
    var before := history[..n];
    NotBackwardsBefore(history);
    var base: nat := 0;
    if n > 0 {
      base := HeldIsTheWindow(before, window);
      assert before[base..] + [history[n]] == history[base..];
      assert before[n - 1] == history[n - 1] && before[base] == history[base];
    } else {
      assert Held(before, window) == [] && [] + [history[n]] == history[0..];
    }
    k := PushMoves(history, window, base);
  }

  lemma {:induction false} Extremes(samples: seq<Sample>)
    requires samples != [] && AllFinite(samples)
    ensures forall i :: 0 <= i < |samples| ==> Lowest(samples) <= samples[i].value.value <= Highest(samples)
    ensures exists i, j :: 0 <= i < |samples| && 0 <= j < |samples|
                           && samples[i].value.value == Highest(samples) && samples[j].value.value == Lowest(samples)
    decreases |samples|
  {
    if |samples| == 1 {
      assert samples[0].value.value == Highest(samples) && samples[0].value.value == Lowest(samples);
    } else {
      var rest := samples[1..];
      Extremes(rest);
      var i, j :| 0 <= i < |rest| && 0 <= j < |rest| && rest[i].value.value == Highest(rest) && rest[j].value.value == Lowest(rest);
      var i' := if Highest(samples) == Highest(rest) then i + 1 else 0;
      var j' := if Lowest(samples) == Lowest(rest) then j + 1 else 0;
      assert samples[i'].value.value == Highest(samples) && samples[j'].value.value == Lowest(samples);
    }
  }

  lemma {:induction false} FlatIsSettled(history: seq<Sample>, window: real, band: real, k: nat)
    requires k < |history|
    ensures Flat(history, window, band, k) <==> Settled(history[k..], history[|history| - 1].time, window, band)
  {
    var held := history[k..];
    assert forall i :: k <= i < |history| ==> history[i] == held[i - k];
    if AllFinite(held) {
      Extremes(held);
      var i, j :| 0 <= i < |held| && 0 <= j < |held| && held[i].value.value == Highest(held) && held[j].value.value == Lowest(held);
      assert history[i + k] == held[i] && history[j + k] == held[j];
    }
    if Flat(history, window, band, k) {
      forall i | 0 <= i < |held| ensures held[i].value.Finite? { assert history[i + k].value.Finite?; }
    }
  }

  lemma {:induction false} BeginsOnce(history: seq<Sample>, window: real, k: nat, m: nat)
    requires NotBackwards(history) && Begins(history, window, k) && Begins(history, window, m)
    ensures k == m
  {
  }

  /** The deque and the whole history agree on whether the reading has settled, at every push, for
      times that do not run backwards and values that may not be finite. */
  lemma {:induction false} DequeIsHistory(history: seq<Sample>, window: real, band: real)
    requires history != [] && NotBackwards(history) && window > 0.0
    ensures Settled(Held(history, window), history[|history| - 1].time, window, band) <==> Steady(history, window, band)
  {
    hide Settled, Flat, Held, Begins;
    var k := HeldIsTheWindow(history, window);
    BeginsWithin(history, window, k);
    FlatIsSettled(history, window, band, k);
    if Steady(history, window, band) {
      var m :| Begins(history, window, m) && Flat(history, window, band, m);
      BeginsOnce(history, window, k, m);
    }
  }

  lemma {:induction false} BeginsWithin(history: seq<Sample>, window: real, k: nat)
    requires Begins(history, window, k)
    ensures k < |history|
  {
  }

  // The code, updating its fields in place, against the functions above.

  class RelayTest {
    const config: Config
    var high: bool
    var extreme: real
    var peaks: seq<real>
    var troughs: seq<real>
    var switches: seq<real>
    var started: Option<real>
    var result: Option<Ultimate>

    constructor (config: Config)
      ensures this.config == config && View() == READY
    {
      this.config := config;
      high, extreme, peaks, troughs, switches, started, result := true, 0.0, [], [], [], None, None;
    }

    ghost function View(): Relay
      reads this
    {
      Relay(high, extreme, peaks, troughs, switches, started, result)
    }

    method Close() returns (verdict: Verdict)
      modifies this
      ensures Stepped(View(), verdict) == Evaluate(config, old(View()))
    {
      hide Mean, Differences;
      var wanted := config.cycles + 1;
      if |peaks| < wanted || |troughs| < wanted { return Fine; }
      if Tail(peaks) == [] || Tail(troughs) == [] { return NothingToAverage; }
      var amplitude := (Mean(Tail(peaks)) - Mean(Tail(troughs))) / 2.0;
      if amplitude <= config.hysteresis { return TooSmall; }
      var periods := Differences(Tail(switches));
      if periods == [] { return NothingToAverage; }
      result := Some(Ultimate(amplitude, Mean(periods)));
      return Fine;
    }

    method Advance(time: real, reading: real) returns (verdict: Verdict)
      modifies this
      ensures Stepped(View(), verdict) == Step(config, old(View()), time, reading)
    {
      hide Evaluate;
      if result.Some? { return Fine; }
      if started.None? {
        started := Some(time);
        high := reading < config.centre;
        extreme := reading;
      }
      var previous := high;
      var now := Switched(config, high, reading);
      if now != previous {
        if previous { troughs := troughs + [extreme]; } else { peaks := peaks + [extreme]; }
        high := now;
        switches := switches + [time];
        extreme := reading;
        assert View() == Turned(Began(config, old(View()), time, reading), time, reading);
        EvaluateKeeps(config, View());
        verdict := Close();
        if verdict != Fine { return; }
      }
      extreme := if high then Min(extreme, reading) else Max(extreme, reading);
      if result.None? && config.timeout.Some? && started.Some? && time - started.value > config.timeout.value {
        return TimedOut;
      }
      return Fine;
    }
  }

  class SteadyState {
    const window: real
    const band: real
    var samples: seq<Sample>
    ghost var history: seq<Sample>

    constructor (window: real, band: real)
      ensures this.window == window && this.band == band && history == [] && Valid()
    {
      this.window, this.band, samples, history := window, band, [], [];
    }

    ghost predicate Valid()
      reads this
    {
      samples == Held(history, window)
    }

    method Reset()
      modifies this
      ensures history == [] && Valid()
    {
      samples, history := [], [];
    }

    /** Settled is what the whole history since the last reset says. */
    method Push(time: real, value: Value) returns (settled: bool)
      requires Valid() && window > 0.0 && NotBackwards(history + [Sample(time, value)])
      modifies this
      ensures Valid() && history == old(history) + [Sample(time, value)]
      ensures settled <==> Steady(history, window, band)
    {
      hide Settled, Steady, NotBackwards;
      history := history + [Sample(time, value)];
      samples := samples + [Sample(time, value)];
      ghost var whole := Trimmed(samples, time, window);
      assert history[..|history| - 1] == old(history);
      while |samples| > 1 && time - samples[1].time >= window
        invariant Trimmed(samples, time, window) == whole && history == old(history) + [Sample(time, value)]
        decreases |samples|
      {
        samples := samples[1..];
      }
      assert samples == whole;
      DequeIsHistory(history, window, band);
      settled := Settled(samples, time, window, band);
    }
  }
}
