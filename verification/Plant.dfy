/** Simulated plants (`sim/src/flyball_sim/plant.py`): a lag, an integrator, and a lag whose input
    arrives late through a pipe, with the `Advancer` that steps one plant for many readers.

    `exp` is a parameter, known by its laws alone. */
module Plant {
  import opened Options

  predicate Law(exp: real -> real, x: real, y: real) {
    exp(x + y) == exp(x) * exp(y)
  }

  ghost predicate ExpLaws(exp: real -> real) {
    exp(0.0) == 1.0 && forall x, y :: Law(exp, x, y)
  }

  // A first-order lag.

  datatype Response = Response(tau: real, gain: real, ambient: real)

  /** Where the lag is `d` seconds after `v`, the drive `u` held. */
  function Flow(exp: real -> real, lag: Response, u: real, v: real, d: real): real
    requires lag.tau > 0.0
  {
    var target := lag.ambient + lag.gain * u;
    target + (v - target) * exp(-d / lag.tau)
  }

  /** `inverse_feedforward`. */
  function Holds(lag: Response, drive: real): real {
    lag.ambient + lag.gain * drive
  }

  function Feedforward(lag: Response, demand: real): real {
    if lag.gain != 0.0 then (demand - lag.ambient) / lag.gain else 0.0
  }

  lemma {:induction false} Decays(exp: real -> real, a: real, b: real, tau: real)
    requires ExpLaws(exp) && tau > 0.0
    ensures exp(-(a + b) / tau) == exp(-a / tau) * exp(-b / tau)
  {
    assert Law(exp, -a / tau, -b / tau);
    assert -a / tau + -b / tau == -(a + b) / tau;
  }

  /** Held exactly: two steps are the one step of their length. */
  lemma {:induction false} FlowSplits(exp: real -> real, lag: Response, u: real, v: real, a: real, b: real)
    requires ExpLaws(exp) && lag.tau > 0.0
    ensures Flow(exp, lag, u, Flow(exp, lag, u, v, a), b) == Flow(exp, lag, u, v, a + b)
  {
    var target := lag.ambient + lag.gain * u;
    var x, y := exp(-a / lag.tau), exp(-b / lag.tau);
    Decays(exp, a, b, lag.tau);
    FadesTwice(target, v, x, y);
  }

  lemma {:induction false} ExpPositive(exp: real -> real, x: real)
    requires ExpLaws(exp)
    ensures exp(x) > 0.0
  {
    assert Law(exp, x / 2.0, x / 2.0) && Law(exp, x / 2.0, -x / 2.0);
    assert x / 2.0 + x / 2.0 == x && x / 2.0 + -x / 2.0 == 0.0;
    SquarePositive(exp(x / 2.0), exp(-x / 2.0));
  }

  lemma {:induction false} SquarePositive(a: real, b: real)
    requires a * b == 1.0
    ensures a * a > 0.0
  {
    if a > 0.0 { Positive(a, a); } else { Positive(-a, -a); }
  }

  lemma {:induction false} Positive(a: real, b: real)
    requires a > 0.0 && b > 0.0
    ensures a * b > 0.0
  {
  }

  /** What `inverse_feedforward` promises: the output a drive holds at steady state is left as it is by
      every step, and any other comes towards it, its distance shrunk by the exponential, without ever
      passing it. `feedforward` gives the drive that holds a demand. */
  lemma {:induction false} LagSettles(exp: real -> real, lag: Response, u: real, v: real, d: real)
    requires ExpLaws(exp) && lag.tau > 0.0
    ensures Holds(lag, u) == lag.ambient + lag.gain * u
    ensures Flow(exp, lag, u, lag.ambient + lag.gain * u, d) == lag.ambient + lag.gain * u
    ensures var away, after := v - (lag.ambient + lag.gain * u), Flow(exp, lag, u, v, d) - (lag.ambient + lag.gain * u);
      && after == away * exp(-d / lag.tau)
      && (away > 0.0 ==> after > 0.0) && (away < 0.0 ==> after < 0.0)
  {
    ExpPositive(exp, -d / lag.tau);
    KeepsSign(v - (lag.ambient + lag.gain * u), exp(-d / lag.tau));
  }

  lemma {:induction false} KeepsSign(a: real, x: real)
    requires x > 0.0
    ensures (a > 0.0 ==> a * x > 0.0) && (a < 0.0 ==> a * x < 0.0)
  {
  }

  lemma {:induction false} HoldsTheDemand(lag: Response, demand: real)
    requires lag.gain != 0.0
    ensures Holds(lag, Feedforward(lag, demand)) == demand
  {
  }

  // An integrator, with a drain or without.

  datatype Tank = Tank(gain: real, leak: real)

  /** How much of a difference is left after `d` seconds of draining. */
  function Left(exp: real -> real, leak: real, d: real): real {
    exp(-leak * d)
  }

  lemma {:induction false} LeftSplits(exp: real -> real, leak: real, a: real, b: real)
    requires ExpLaws(exp)
    ensures Left(exp, leak, a + b) == Left(exp, leak, a) * Left(exp, leak, b)
  {
    var x, y := -leak * a, -leak * b;
    assert Law(exp, x, y);
    assert -leak * (a + b) == x + y;
  }

  lemma {:induction false} LeftIs(exp: real -> real, leak: real, d: real)
    requires ExpLaws(exp)
    ensures Left(exp, leak, d) == exp(-leak * d) > 0.0
  {
    ExpPositive(exp, -leak * d);
  }

  function Steady(tank: Tank, u: real): real
    requires tank.leak > 0.0
  {
    tank.gain * u / tank.leak
  }

  function Fill(exp: real -> real, tank: Tank, u: real, v: real, d: real): real {
    if tank.leak > 0.0 then
      Steady(tank, u) + (v - Steady(tank, u)) * Left(exp, tank.leak, d)
    else
      v + tank.gain * u * d
  }

  lemma {:induction false} FadesTwice(target: real, v: real, x: real, y: real)
    ensures target + (target + (v - target) * x - target) * y == target + (v - target) * (x * y)
  {
  }

  lemma {:induction false} FillSplits(exp: real -> real, tank: Tank, u: real, v: real, a: real, b: real)
    requires ExpLaws(exp)
    ensures Fill(exp, tank, u, Fill(exp, tank, u, v, a), b) == Fill(exp, tank, u, v, a + b)
  {
    hide Left, ExpLaws, Steady;
    if tank.leak > 0.0 {
      LeftSplits(exp, tank.leak, a, b);
      FadesTwice(Steady(tank, u), v, Left(exp, tank.leak, a), Left(exp, tank.leak, b));
    } else {
      var rate := tank.gain * u;
      assert rate * a + rate * b == rate * (a + b);
    }
  }

  /** With a drain the level that stays is where it takes as much as comes in, and any other comes towards
      it without passing it; with none the level rises by what came in. */
  lemma {:induction false} TankSettles(exp: real -> real, tank: Tank, u: real, v: real, d: real)
    requires ExpLaws(exp)
    ensures tank.leak > 0.0 ==>
      && tank.leak * Steady(tank, u) == tank.gain * u
      && Fill(exp, tank, u, Steady(tank, u), d) == Steady(tank, u)
      && var away, after := v - Steady(tank, u), Fill(exp, tank, u, v, d) - Steady(tank, u);
         && after == away * Left(exp, tank.leak, d)
         && (away > 0.0 ==> after > 0.0) && (away < 0.0 ==> after < 0.0)
    ensures tank.leak <= 0.0 ==> Fill(exp, tank, u, v, d) == v + tank.gain * u * d
  {
    if tank.leak > 0.0 {
      LeftIs(exp, tank.leak, d);
      KeepsSign(v - Steady(tank, u), Left(exp, tank.leak, d));
      Quotient(tank.gain * u, tank.leak);
    }
  }

  lemma {:induction false} Quotient(a: real, b: real)
    requires b != 0.0
    ensures b * (a / b) == a
  {
  }

  /** The input that `feedforward` gives for a level holds it. */
  lemma {:induction false} TankHolds(exp: real -> real, tank: Tank, level: real, d: real)
    requires ExpLaws(exp) && tank.gain != 0.0 && tank.leak >= 0.0
    ensures Fill(exp, tank, level * tank.leak / tank.gain, level, d) == level
  {
    var u := level * tank.leak / tank.gain;
    assert tank.gain * u == level * tank.leak;
    if tank.leak > 0.0 {
      assert tank.gain * u / tank.leak == level;
    } else {
      assert tank.gain * u == 0.0;
    }
  }

  // A lag behind dead time.

  datatype Arrival = Arrival(at: real, value: real)

  datatype Delayed = Delayed(now: real, input: real, pipe: seq<Arrival>, drive: real, value: real)

  datatype Drained = Drained(pipe: seq<Arrival>, drive: real, value: real)

  /** What has arrived by `end` reaches the lag at its own instant. */
  function Drain(exp: real -> real, lag: Response, pipe: seq<Arrival>, at: real, end: real, u: real, v: real): Drained
    requires lag.tau > 0.0
  {
    if pipe == [] || pipe[0].at > end then
      Drained(pipe, u, if end > at then Flow(exp, lag, u, v, end - at) else v)
    else if pipe[0].at > at then
      Drain(exp, lag, pipe[1..], pipe[0].at, end, pipe[0].value, Flow(exp, lag, u, v, pipe[0].at - at))
    else
      Drain(exp, lag, pipe[1..], at, end, pipe[0].value, v)
  }

  function Delay(exp: real -> real, lag: Response, dead: real, s: Delayed, dt: real): Delayed
    requires lag.tau > 0.0
  {
    var d := Drain(exp, lag, s.pipe + [Arrival(s.now + dead, s.input)], s.now, s.now + dt, s.drive, s.value);
    Delayed(s.now + dt, s.input, d.pipe, d.drive, d.value)
  }

  /** In order of arrival, none further off than the dead time. */
  ghost predicate Queued(pipe: seq<Arrival>, horizon: real) {
    && (forall i, j :: 0 <= i < j < |pipe| ==> pipe[i].at <= pipe[j].at)
    && (forall i :: 0 <= i < |pipe| ==> pipe[i].at <= horizon)
  }

  ghost predicate WellQueued(s: Delayed, dead: real) {
    Queued(s.pipe, s.now + dead)
  }

  /** The drive once everything in the pipe has arrived. */
  function Eventually(u: real, pipe: seq<Arrival>): real {
    if pipe == [] then u else pipe[|pipe| - 1].value
  }

  /** The pipe without the entries that change nothing: those repeating the drive already in force. */
  function Changes(u: real, pipe: seq<Arrival>): seq<Arrival>
    decreases |pipe|
  {
    if pipe == [] then []
    else if pipe[0].value == u then Changes(u, pipe[1..])
    else [pipe[0]] + Changes(pipe[0].value, pipe[1..])
  }

  lemma {:induction false} DrainKeepsQueue(exp: real -> real, lag: Response, pipe: seq<Arrival>, at: real, end: real,
      u: real, v: real, horizon: real)
    requires lag.tau > 0.0 && Queued(pipe, horizon)
    ensures var d := Drain(exp, lag, pipe, at, end, u, v);
      Queued(d.pipe, horizon) && Eventually(d.drive, d.pipe) == Eventually(u, pipe)
    decreases |pipe|
  {
    hide Flow, Queued, Eventually;
    if pipe != [] { QueuedOn(pipe, u, horizon); }
    if pipe == [] || pipe[0].at > end {
    } else if pipe[0].at > at {
      DrainKeepsQueue(exp, lag, pipe[1..], pipe[0].at, end, pipe[0].value, Flow(exp, lag, u, v, pipe[0].at - at), horizon);
    } else {
      DrainKeepsQueue(exp, lag, pipe[1..], at, end, pipe[0].value, v, horizon);
    }
  }

  lemma {:induction false} QueuedOn(pipe: seq<Arrival>, u: real, horizon: real)
    requires Queued(pipe, horizon) && pipe != []
    ensures Queued(pipe[1..], horizon) && Eventually(pipe[0].value, pipe[1..]) == Eventually(u, pipe)
  {
  }

  /** Coasting to `t` first, while nothing is due before it, makes no difference. */
  lemma {:induction false} Coast(exp: real -> real, lag: Response, pipe: seq<Arrival>, at: real, t: real, end: real,
      u: real, v: real)
    requires ExpLaws(exp) && lag.tau > 0.0 && at <= t <= end && (pipe == [] || t <= pipe[0].at)
    ensures Drain(exp, lag, pipe, at, end, u, v)
         == Drain(exp, lag, pipe, t, end, u, if t > at then Flow(exp, lag, u, v, t - at) else v)
  {
    hide Flow, ExpLaws;
    if t > at {
      FlowSplits(exp, lag, u, v, t - at, end - t);
      FlowStill(exp, lag, u, Flow(exp, lag, u, v, t - at));
      if pipe != [] { FlowSplits(exp, lag, u, v, t - at, pipe[0].at - t); }
    }
  }

  lemma {:induction false} FlowStill(exp: real -> real, lag: Response, u: real, v: real)
    requires ExpLaws(exp) && lag.tau > 0.0
    ensures Flow(exp, lag, u, v, 0.0) == v
  {
  }

  /** Draining to `mid`, what is yet to enter coming in behind, and from there to `end` is draining
      everything to `end` at once. */
  lemma {:induction false} DrainSplits(exp: real -> real, lag: Response, pipe: seq<Arrival>, later: seq<Arrival>,
                                       at: real, mid: real, end: real, u: real, v: real)
    requires ExpLaws(exp) && lag.tau > 0.0 && at <= mid <= end && (later == [] || mid <= later[0].at)
    ensures var d := Drain(exp, lag, pipe, at, mid, u, v);
      Drain(exp, lag, d.pipe + later, mid, end, d.drive, d.value) == Drain(exp, lag, pipe + later, at, end, u, v)
    decreases |pipe|
  {
    hide Flow, ExpLaws;
    if pipe == [] || pipe[0].at > mid {
      Coast(exp, lag, pipe + later, at, mid, end, u, v);
    } else {
      assert (pipe + later)[1..] == pipe[1..] + later;
      if pipe[0].at > at {
        DrainSplits(exp, lag, pipe[1..], later, pipe[0].at, mid, end, pipe[0].value, Flow(exp, lag, u, v, pipe[0].at - at));
      } else {
        DrainSplits(exp, lag, pipe[1..], later, at, mid, end, pipe[0].value, v);
      }
    }
  }

  lemma {:induction false} ChangesComeNoEarlier(u: real, pipe: seq<Arrival>, horizon: real, t: real)
    requires Queued(pipe, horizon) && (pipe == [] || t <= pipe[0].at)
    ensures Changes(u, pipe) == [] || t <= Changes(u, pipe)[0].at
    decreases |pipe|
  {
    if pipe != [] && pipe[0].value == u { ChangesComeNoEarlier(u, pipe[1..], horizon, t); }
  }

  /** Only the changes in the pipe matter. */
  lemma {:induction false} OnlyChangesMatter(exp: real -> real, lag: Response, pipe: seq<Arrival>, at: real,
      end: real, u: real, v: real, horizon: real)
    requires ExpLaws(exp) && lag.tau > 0.0 && at <= end && Queued(pipe, horizon)
    ensures var d := Drain(exp, lag, pipe, at, end, u, v);
      Drain(exp, lag, Changes(u, pipe), at, end, u, v) == Drained(Changes(d.drive, d.pipe), d.drive, d.value)
    decreases |pipe|
  {
    hide Flow, ExpLaws, Queued;
    if pipe == [] {
    } else {
      var t, x, rest := pipe[0].at, pipe[0].value, pipe[1..];
      QueuedTail(pipe, horizon);
      if t > end {
        ChangesComeNoEarlier(u, pipe, horizon, t);
      } else {
        var w := if t > at then Flow(exp, lag, u, v, t - at) else v;
        var from := if t > at then t else at;
        OnlyChangesMatter(exp, lag, rest, from, end, x, w, horizon);
        if x == u {
          if t > at {
            ChangesComeNoEarlier(u, rest, horizon, t);
            Coast(exp, lag, Changes(u, rest), at, t, end, u, v);
          }
        } else {
          assert ([pipe[0]] + Changes(x, rest))[1..] == Changes(x, rest);
        }
      }
    }
  }

  lemma {:induction false} QueuedTail(pipe: seq<Arrival>, horizon: real)
    requires Queued(pipe, horizon) && pipe != []
    ensures Queued(pipe[1..], horizon) && (pipe[1..] == [] || pipe[0].at <= pipe[1..][0].at)
  {
  }

  lemma {:induction false} RepeatChangesNothing(u: real, pipe: seq<Arrival>, t: real)
    ensures Changes(u, pipe + [Arrival(t, Eventually(u, pipe))]) == Changes(u, pipe)
    decreases |pipe|
  {
    if pipe == [] {
      assert Changes(u, []) == [];
    } else {
      assert (pipe + [Arrival(t, Eventually(u, pipe))])[1..] == pipe[1..] + [Arrival(t, Eventually(u, pipe))];
      RepeatChangesNothing(pipe[0].value, pipe[1..], t);
    }
  }

  lemma {:induction false} ChangesAppend(u: real, pipe: seq<Arrival>, last: Arrival)
    ensures Changes(u, pipe + [last]) == Changes(u, pipe) + Changes(Eventually(u, pipe), [last])
    decreases |pipe|
  {
    if pipe == [] {
      assert [] + [last] == [last];
    } else {
      assert (pipe + [last])[1..] == pipe[1..] + [last];
      ChangesAppend(pipe[0].value, pipe[1..], last);
    }
  }

  lemma {:induction false} ChangesEnd(u: real, pipe: seq<Arrival>)
    ensures Eventually(u, Changes(u, pipe)) == Eventually(u, pipe)
    decreases |pipe|
  {
    if pipe != [] {
      ChangesEnd(pipe[0].value, pipe[1..]);
      if pipe[0].value != u { assert Changes(u, pipe) == [pipe[0]] + Changes(pipe[0].value, pipe[1..]); }
    }
  }

  /** Same output, same clock, and nothing ahead that could ever tell the two apart. */
  ghost predicate Alike(s: Delayed, t: Delayed) {
    && s.now == t.now && s.input == t.input && s.drive == t.drive && s.value == t.value
    && Changes(s.drive, s.pipe) == Changes(t.drive, t.pipe)
  }

  lemma {:induction false} StepKeepsQueue(exp: real -> real, lag: Response, dead: real, s: Delayed, dt: real)
    requires lag.tau > 0.0 && dt >= 0.0 && WellQueued(s, dead)
    ensures WellQueued(Delay(exp, lag, dead, s, dt), dead)
    ensures var t := Delay(exp, lag, dead, s, dt); Eventually(t.drive, t.pipe) == s.input
  {
    hide Drain, Flow;
    var pipe := s.pipe + [Arrival(s.now + dead, s.input)];
    DrainKeepsQueue(exp, lag, pipe, s.now, s.now + dt, s.drive, s.value, s.now + dead);
  }

  /** `Alike` is kept by every step, so states that are alike stay so whatever follows. */
  lemma {:induction false} StepKeepsAlike(exp: real -> real, lag: Response, dead: real, s: Delayed, t: Delayed,
      dt: real)
    requires ExpLaws(exp) && lag.tau > 0.0 && dt >= 0.0
    requires WellQueued(s, dead) && WellQueued(t, dead) && Alike(s, t)
    ensures Alike(Delay(exp, lag, dead, s, dt), Delay(exp, lag, dead, t, dt))
  {
    hide ExpLaws, Drain;
    var last := Arrival(s.now + dead, s.input);
    ChangesAppend(s.drive, s.pipe, last);
    ChangesAppend(t.drive, t.pipe, last);
    ChangesEnd(s.drive, s.pipe);
    ChangesEnd(t.drive, t.pipe);
    OnlyChangesMatter(exp, lag, s.pipe + [last], s.now, s.now + dt, s.drive, s.value, s.now + dead);
    OnlyChangesMatter(exp, lag, t.pipe + [last], s.now, s.now + dt, s.drive, s.value, s.now + dead);
  }

  /** The step size changes nothing: `a` then `b`, the input held, is `a + b`. */
  lemma {:induction false} StepSplits(exp: real -> real, lag: Response, dead: real, s: Delayed, a: real, b: real)
    requires ExpLaws(exp) && lag.tau > 0.0 && a >= 0.0 && b >= 0.0 && WellQueued(s, dead)
    ensures Alike(Delay(exp, lag, dead, Delay(exp, lag, dead, s, a), b), Delay(exp, lag, dead, s, a + b))
  {
    hide ExpLaws, Drain, Changes, Eventually, Queued;
    var pipe := s.pipe + [Arrival(s.now + dead, s.input)];
    var m := Delay(exp, lag, dead, s, a);
    var end := m.now + b;
    StepKeepsQueue(exp, lag, dead, s, a);
    StepKeepsQueue(exp, lag, dead, m, b);
    assert pipe + [] == pipe && m.pipe + [] == m.pipe && end == s.now + (a + b);
    DrainSplits(exp, lag, pipe, [], s.now, m.now, end, s.drive, s.value);
    RepeatIsNothing(exp, lag, m, m.now + dead, end);
  }

  /** Sending in again what is in force already. */
  lemma {:induction false} RepeatIsNothing(exp: real -> real, lag: Response, m: Delayed, t: real, end: real)
    requires ExpLaws(exp) && lag.tau > 0.0 && m.now <= end && Queued(m.pipe, t) && Eventually(m.drive, m.pipe) == m.input
    ensures var d := Drain(exp, lag, m.pipe + [Arrival(t, m.input)], m.now, end, m.drive, m.value);
      var e := Drain(exp, lag, m.pipe, m.now, end, m.drive, m.value);
      d.drive == e.drive && d.value == e.value && Changes(d.drive, d.pipe) == Changes(e.drive, e.pipe)
  {
    hide ExpLaws, Drain, Changes;
    RepeatChangesNothing(m.drive, m.pipe, t);
    OnlyChangesMatter(exp, lag, m.pipe + [Arrival(t, m.input)], m.now, end, m.drive, m.value, t);
    OnlyChangesMatter(exp, lag, m.pipe, m.now, end, m.drive, m.value, t);
  }

  // Any use of it: the input set, and time let pass, in any order.

  datatype Use = Set(input: real) | Wait(dt: real)

  predicate Forward(uses: seq<Use>) {
    forall i :: 0 <= i < |uses| && uses[i].Wait? ==> uses[i].dt >= 0.0
  }

  function Do(exp: real -> real, lag: Response, dead: real, s: Delayed, use: Use): Delayed
    requires lag.tau > 0.0
  {
    if use.Set? then s.(input := use.input) else Delay(exp, lag, dead, s, use.dt)
  }

  function Run(exp: real -> real, lag: Response, dead: real, s: Delayed, uses: seq<Use>): Delayed
    requires lag.tau > 0.0
    decreases |uses|
  {
    if uses == [] then s else Run(exp, lag, dead, Do(exp, lag, dead, s, uses[0]), uses[1..])
  }

  /** States that are alike give the same output after any further use. */
  lemma {:induction false} AlikeForGood(exp: real -> real, lag: Response, dead: real, s: Delayed, t: Delayed,
      uses: seq<Use>)
    requires ExpLaws(exp) && lag.tau > 0.0 && Forward(uses)
    requires WellQueued(s, dead) && WellQueued(t, dead) && Alike(s, t)
    ensures Alike(Run(exp, lag, dead, s, uses), Run(exp, lag, dead, t, uses))
    decreases |uses|
  {
    hide ExpLaws, Drain;
    if uses != [] {
      if uses[0].Wait? {
        StepKeepsAlike(exp, lag, dead, s, t, uses[0].dt);
        StepKeepsQueue(exp, lag, dead, s, uses[0].dt);
        StepKeepsQueue(exp, lag, dead, t, uses[0].dt);
      }
      AlikeForGood(exp, lag, dead, Do(exp, lag, dead, s, uses[0]), Do(exp, lag, dead, t, uses[0]), uses[1..]);
    }
  }

  function Elapsed(uses: seq<Use>): real {
    if uses == [] then 0.0 else (if uses[0].Wait? then uses[0].dt else 0.0) + Elapsed(uses[1..])
  }

  /** What entered the pipe, each `dead` after it was in force: no lag, no draining. */
  function Entered(now: real, input: real, dead: real, uses: seq<Use>): seq<Arrival>
    decreases |uses|
  {
    if uses == [] then []
    else if uses[0].Set? then Entered(now, uses[0].input, dead, uses[1..])
    else [Arrival(now + dead, input)] + Entered(now + uses[0].dt, input, dead, uses[1..])
  }

  lemma {:induction false} EnteredLate(now: real, input: real, dead: real, uses: seq<Use>)
    requires Forward(uses)
    ensures var later := Entered(now, input, dead, uses); later == [] || now + dead <= later[0].at
    decreases |uses|
  {
    if uses != [] && uses[0].Set? { EnteredLate(now, uses[0].input, dead, uses[1..]); }
  }

  lemma {:induction false} ElapsedForward(uses: seq<Use>)
    requires Forward(uses)
    ensures Elapsed(uses) >= 0.0
    decreases |uses|
  {
    if uses != [] { ElapsedForward(uses[1..]); }
  }

  /** However it was used and polled, the lag has seen exactly the inputs, each `dead` late: stepping
      along is the whole history drained at once. */
  lemma {:induction false} OnlineIsOffline(exp: real -> real, lag: Response, dead: real, s: Delayed, uses: seq<Use>)
    requires ExpLaws(exp) && lag.tau > 0.0 && dead >= 0.0 && Forward(uses)
    requires uses != [] && uses[|uses| - 1].Wait?
    ensures var end := Run(exp, lag, dead, s, uses);
      && end.now == s.now + Elapsed(uses)
      && Drained(end.pipe, end.drive, end.value)
         == Drain(exp, lag, s.pipe + Entered(s.now, s.input, dead, uses), s.now, end.now, s.drive, s.value)
    decreases |uses|
  {
    hide ExpLaws, Drain;
    var next := Do(exp, lag, dead, s, uses[0]);
    if |uses| == 1 {
      assert Elapsed(uses[1..]) == 0.0 && Entered(s.now + uses[0].dt, s.input, dead, uses[1..]) == [];
      assert Run(exp, lag, dead, next, uses[1..]) == next;
      assert Entered(s.now, s.input, dead, uses) == [Arrival(s.now + dead, s.input)];
    } else {
      OnlineIsOffline(exp, lag, dead, next, uses[1..]);
      if uses[0].Wait? {
        var later := Entered(next.now, s.input, dead, uses[1..]);
        EnteredLate(next.now, s.input, dead, uses[1..]);
        ElapsedForward(uses[1..]);
        var first := s.pipe + [Arrival(s.now + dead, s.input)];
        DrainSplits(exp, lag, first, later, s.now, next.now, next.now + Elapsed(uses[1..]), s.drive, s.value);
        assert first + later == s.pipe + Entered(s.now, s.input, dead, uses);
      }
    }
  }

  /** A new input on a settled pipe: nothing for `dead`, then the lag's own response to it. */
  lemma {:induction false} DeadTimeIsExact(exp: real -> real, lag: Response, dead: real, s: Delayed, dt: real)
    requires ExpLaws(exp) && lag.tau > 0.0 && dead >= 0.0 && dt >= 0.0 && s.pipe == []
    ensures Delay(exp, lag, dead, s, dt).value
         == if dt <= dead then Flow(exp, lag, s.drive, s.value, dt)
            else Flow(exp, lag, s.input, Flow(exp, lag, s.drive, s.value, dead), dt - dead)
  {
    hide Flow, ExpLaws;
    FlowStill(exp, lag, s.drive, s.value);
    var first := Arrival(s.now + dead, s.input);
    assert [] + [first] == [first] && [first][1..] == [];
    var v := if dead > 0.0 then Flow(exp, lag, s.drive, s.value, dead) else s.value;
    assert first.at - s.now == dead;
    if dt >= dead {
      assert Delay(exp, lag, dead, s, dt).value == Drain(exp, lag, [], s.now + dead, s.now + dt, s.input, v).value;
    }
  }

  /** Once the dead time is over, whatever was in the pipe, it settles as the lag does: with the input
      held, the distance to `ambient + gain * input` shrinks by the exponential. */
  lemma {:induction false} FopdtSettles(exp: real -> real, lag: Response, dead: real, s: Delayed, wait: real, d: real)
    requires ExpLaws(exp) && lag.tau > 0.0 && 0.0 <= dead <= wait && d >= 0.0 && WellQueued(s, dead)
    ensures var a := Delay(exp, lag, dead, s, wait);
      var b := Delay(exp, lag, dead, a, d);
      var steady := lag.ambient + lag.gain * s.input;
      && a.pipe == [] && a.drive == s.input
      && b.value - steady == (a.value - steady) * exp(-d / lag.tau)
  {
    hide ExpLaws, Flow, Drain, Queued;
    var a := Delay(exp, lag, dead, s, wait);
    StepKeepsQueue(exp, lag, dead, s, wait);
    QueuedBehind(s.pipe, s.now + dead, s.input);
    EmptiesOut(exp, lag, s.pipe + [Arrival(s.now + dead, s.input)], s.now, s.now + wait, s.drive, s.value, s.now + dead);
    DeadTimeIsExact(exp, lag, dead, a, d);
    if d > dead { FlowSplits(exp, lag, s.input, a.value, dead, d - dead); }
    LagSettles(exp, lag, s.input, a.value, d);
  }

  lemma {:induction false} QueuedBehind(pipe: seq<Arrival>, horizon: real, value: real)
    requires Queued(pipe, horizon)
    ensures Queued(pipe + [Arrival(horizon, value)], horizon)
  {
  }

  lemma {:induction false} EmptiesOut(exp: real -> real, lag: Response, pipe: seq<Arrival>, at: real, end: real,
      u: real, v: real, horizon: real)
    requires lag.tau > 0.0 && Queued(pipe, horizon) && horizon <= end
    ensures Drain(exp, lag, pipe, at, end, u, v).pipe == []
    decreases |pipe|
  {
    hide Flow;
    if pipe != [] {
      QueuedOn(pipe, u, horizon);
      if pipe[0].at > at {
        EmptiesOut(exp, lag, pipe[1..], pipe[0].at, end, pipe[0].value, Flow(exp, lag, u, v, pipe[0].at - at), horizon);
      } else {
        EmptiesOut(exp, lag, pipe[1..], at, end, pipe[0].value, v, horizon);
      }
    }
  }

  // Any plant, one advancer, many readers.

  datatype Model =
    | Lagging(lag: Response, input: real, value: real)
    | Filling(tank: Tank, input: real, value: real)
    | Late(lag: Response, dead: real, state: Delayed)

  ghost predicate Proper(m: Model) {
    match m
    case Lagging(lag, _, _) => lag.tau > 0.0
    case Filling(_, _, _) => true
    case Late(lag, dead, state) => lag.tau > 0.0 && dead >= 0.0 && WellQueued(state, dead)
  }

  function StepModel(exp: real -> real, m: Model, dt: real): Model
    requires m.Lagging? || m.Late? ==> m.lag.tau > 0.0
  {
    match m
    case Lagging(lag, input, value) => Lagging(lag, input, Flow(exp, lag, input, value, dt))
    case Filling(tank, input, value) => Filling(tank, input, Fill(exp, tank, input, value, dt))
    case Late(lag, dead, state) => Late(lag, dead, Delay(exp, lag, dead, state, dt))
  }

  ghost predicate AlikeModels(m: Model, n: Model) {
    m == n || (m.Late? && n.Late? && m.lag == n.lag && m.dead == n.dead && Alike(m.state, n.state))
  }

  lemma {:induction false} ModelSteps(exp: real -> real, m: Model, n: Model, a: real, b: real)
    requires ExpLaws(exp) && a >= 0.0 && b >= 0.0 && Proper(m) && Proper(n) && AlikeModels(m, n)
    ensures Proper(StepModel(exp, m, a)) && AlikeModels(StepModel(exp, m, a), StepModel(exp, n, a))
    ensures AlikeModels(StepModel(exp, StepModel(exp, m, a), b), StepModel(exp, m, a + b))
  {
    hide ExpLaws, Flow, Fill, Delay;
    match m
    case Lagging(lag, input, value) => FlowSplits(exp, lag, input, value, a, b);
    case Filling(tank, input, value) => FillSplits(exp, tank, input, value, a, b);
    case Late(lag, dead, state) =>
      StepKeepsQueue(exp, lag, dead, state, a);
      StepKeepsAlike(exp, lag, dead, state, n.state, a);
      StepSplits(exp, lag, dead, state, a, b);
  }

  datatype Advanced = Advanced(plant: Model, last: Option<int>)

  function Seconds(ns: int): real {
    ns as real / 1_000_000_000.0
  }

  function Poll(exp: real -> real, a: Advanced, time: int): Advanced
    requires a.plant.Lagging? || a.plant.Late? ==> a.plant.lag.tau > 0.0
  {
    if a.last == None then a.(last := Some(time))
    else if time > a.last.value then Advanced(StepModel(exp, a.plant, Seconds(time - a.last.value)), Some(time))
    else a
  }

  function PollAll(exp: real -> real, a: Advanced, times: seq<int>): (r: Advanced)
    requires a.plant.Lagging? || a.plant.Late? ==> a.plant.lag.tau > 0.0
    ensures r.plant.Lagging? || r.plant.Late? ==> r.plant.lag.tau > 0.0
  {
    if times == [] then a else Poll(exp, PollAll(exp, a, times[..|times| - 1]), times[|times| - 1])
  }

  function Latest(times: seq<int>): int
    requires times != []
  {
    var t := times[|times| - 1];
    if |times| == 1 || t > Latest(times[..|times| - 1]) then t else Latest(times[..|times| - 1])
  }

  /** However many readers poll, and in whatever order, the plant has moved from the first instant to
      the latest, as if in one step. */
  lemma {:induction false} OnlyTheSpanMatters(exp: real -> real, a: Advanced, times: seq<int>)
    requires ExpLaws(exp) && Proper(a.plant) && a.last == None && times != []
    ensures var r := PollAll(exp, a, times);
      && times[0] <= Latest(times) && r.last == Some(Latest(times)) && Proper(r.plant)
      && AlikeModels(r.plant,
           if Latest(times) > times[0] then StepModel(exp, a.plant, (Latest(times) - times[0]) as real / 1_000_000_000.0)
           else a.plant)
    decreases |times|
  {
    hide ExpLaws, StepModel;
    var n := |times| - 1;
    if n == 0 {
      assert PollAll(exp, a, times[..0]) == a;
    } else {
      OnlyTheSpanMatters(exp, a, times[..n]);
      var before := PollAll(exp, a, times[..n]);
      var seen := Latest(times[..n]);
      if times[n] > seen {
        var on := Seconds(times[n] - seen);
        if seen > times[0] {
          var so := Seconds(seen - times[0]);
          assert so + on == Seconds(times[n] - times[0]);
          ModelSteps(exp, a.plant, a.plant, so, on);
          ModelSteps(exp, before.plant, StepModel(exp, a.plant, so), on, 0.0);
        } else {
          ModelSteps(exp, before.plant, a.plant, on, 0.0);
        }
      }
    }
  }

  lemma {:induction false} OrderOfPollsIsNothing(exp: real -> real, a: Advanced, times: seq<int>, others: seq<int>)
    requires ExpLaws(exp) && Proper(a.plant) && a.last == None && times != [] && others != []
    requires times[0] == others[0] && Latest(times) == Latest(others)
    ensures var r, q := PollAll(exp, a, times), PollAll(exp, a, others);
      r.last == q.last && AlikeModels(r.plant, q.plant)
  {
    hide ExpLaws, StepModel, PollAll, Latest;
    OnlyTheSpanMatters(exp, a, times);
    OnlyTheSpanMatters(exp, a, others);
  }

  // The code, updating its fields in place, against the functions above.

  class Lag {
    const response: Response
    var input: real
    var value: real

    constructor (response: Response, value: real, input: real)
      requires response.tau > 0.0
      ensures this.response == response && this.value == value && this.input == input
    {
      this.response, this.value, this.input := response, value, input;
    }

    method Step(exp: real -> real, dt: real) returns (output: real)
      requires response.tau > 0.0
      modifies this`value
      ensures output == value == Flow(exp, response, input, old(value), dt)
    {
      var target := response.ambient + response.gain * input;
      value := target + (value - target) * exp(-dt / response.tau);
      output := value;
    }
  }

  class Integrator {
    const tank: Tank
    var input: real
    var value: real

    constructor (tank: Tank, value: real, input: real)
      ensures this.tank == tank && this.value == value && this.input == input
    {
      this.tank, this.value, this.input := tank, value, input;
    }

    method Step(exp: real -> real, dt: real) returns (output: real)
      modifies this`value
      ensures output == value == Fill(exp, tank, input, old(value), dt)
    {
      if tank.leak > 0.0 {
        value := Steady(tank, input) + (value - Steady(tank, input)) * Left(exp, tank.leak, dt);
      } else {
        value := value + tank.gain * input * dt;
      }
      output := value;
    }
  }

  class Fopdt {
    const dead: real
    const lag: Lag
    var input: real
    var pipe: seq<Arrival>
    var now: real

    constructor (response: Response, dead: real, value: real, input: real)
      requires response.tau > 0.0 && dead >= 0.0
      ensures fresh(lag) && this.dead == dead && lag.response == response
      ensures View() == Delayed(0.0, input, [], input, value) && WellQueued(View(), dead)
    {
      lag := new Lag(response, value, input);
      this.dead, this.input, pipe, now := dead, input, [], 0.0;
    }

    ghost function View(): Delayed
      reads this, lag
    {
      Delayed(now, input, pipe, lag.input, lag.value)
    }

    method Step(exp: real -> real, dt: real) returns (output: real)
      requires lag.response.tau > 0.0
      modifies this`pipe, this`now, lag
      ensures View() == Delay(exp, lag.response, dead, old(View()), dt)
      ensures output == lag.value
    {
      hide Flow;
      pipe := pipe + [Arrival(now + dead, input)];
      var end := now + dt;
      var at := now;
      ghost var whole := Drain(exp, lag.response, pipe, at, end, lag.input, lag.value);
      while pipe != [] && pipe[0].at <= end
        invariant Drain(exp, lag.response, pipe, at, end, lag.input, lag.value) == whole
        invariant now == old(now) && input == old(input)
        decreases |pipe|
      {
        var next := pipe[0];
        pipe := pipe[1..];
        if next.at > at {
          var _ := lag.Step(exp, next.at - at);
          at := next.at;
        }
        lag.input := next.value;
      }
      if end > at {
        var _ := lag.Step(exp, end - at);
      }
      now := end;
      output := lag.value;
    }
  }

  class Advancer {
    var plant: Model
    var last: Option<int>

    constructor (plant: Model)
      ensures View() == Advanced(plant, None)
    {
      this.plant, last := plant, None;
    }

    ghost function View(): Advanced
      reads this
    {
      Advanced(plant, last)
    }

    method Advance(exp: real -> real, time: int)
      requires plant.Lagging? || plant.Late? ==> plant.lag.tau > 0.0
      modifies this
      ensures View() == Poll(exp, old(View()), time)
    {
      if last != None && time > last.value {
        plant := StepModel(exp, plant, Seconds(time - last.value));
      }
      if last == None || time > last.value {
        last := Some(time);
      }
    }
  }
}
