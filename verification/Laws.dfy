/** The control laws (`engine/src/flyball/control/laws.py`, `engine/src/flyball/model/law.py`).

    `exp` is a parameter; nothing here depends on which function it is. */
module Laws {
  import opened Options

  // The integrator with back-calculation.

  /** `ttki` is the anti-windup time times `ki`, zero for none. */
  datatype Integral = Integral(ki: real, ttki: real, integral: real, lastRaw: Option<real>, lastElapsed: real)

  function Contribution(i: Integral): real {
    Share(i.integral, i.ki)
  }

  /** `integral_value`. */
  function Share(integral: real, ki: real): real {
    integral * ki
  }

  function Cleared(i: Integral): Integral {
    i.(integral := 0.0, lastRaw := None, lastElapsed := 0.0)
  }

  datatype Resumed = Resumed(i: Integral, seeded: real)

  function ResumeIntegral(i: Integral, kpTerm: real, correction: real): Resumed {
    if i.ki == 0.0 then Resumed(Cleared(i).(lastRaw := Some(kpTerm)), kpTerm)
    else Resumed(Cleared(i).(lastRaw := Some(correction), integral := (correction - kpTerm) / i.ki), correction)
  }

  datatype Advanced = Advanced(i: Integral, dt: real)

  function Area(error: real, dt: real): real {
    error * dt
  }

  /** Back-calculation: what was not delivered, let back out over the anti-windup time. */
  function Back(short: real, dt: real, ttki: real): real
    requires ttki != 0.0
  {
    short * dt / ttki
  }

  function StepIntegral(i: Integral, error: real, elapsed: real, applied: Option<real>): Advanced {
    var dt := elapsed - i.lastElapsed;
    if dt < 0.0 then Advanced(i, 0.0)
    else
      var on := i.integral + Area(error, dt);
      var back := if i.ttki != 0.0 && applied.Some? && i.lastRaw.Some?
                  then Back(applied.value - i.lastRaw.value, dt, i.ttki) else 0.0;
      Advanced(i.(integral := on + back, lastElapsed := elapsed), dt)
  }

  // The laws.

  datatype Row = Row(setpoint: real, kp: real, ki: real, kd: real)

  datatype Derivative = Derivative(kd: real, n: Option<real>, lastReading: Option<real>, filtered: real)

  datatype Plant = Plant(gain: real, tau: real, dead: real, feedforward: real)

  datatype Seen = Seen(elapsed: real, predicted: real)

  datatype PiLaw = PiLaw(kp: real, b: real, i: Integral)

  datatype PidLaw = PidLaw(kp: real, b: real, i: Integral, d: Derivative)

  datatype Relay = Relay(high: real, low: real, hysteresis: real, on: bool)

  datatype SmithLaw = SmithLaw(pi: PiLaw, plant: Plant, predicted: real, delayed: real, pipe: seq<Seen>, lastOutput: real)

  datatype ScheduledLaw = ScheduledLaw(rows: seq<Row>, tt: real, pid: PidLaw)

  datatype SlidingLaw = SlidingLaw(k: real, lam: real, boundary: real, integral: real, lastElapsed: real)

  /** `IMC` is a `PID` once its gains are computed. */
  datatype Law =
    | OpenLoop
    | P(gain: real)
    | PI(pi: PiLaw)
    | PID(pid: PidLaw)
    | OnOff(relay: Relay)
    | Smith(smith: SmithLaw)
    | Scheduled(scheduled: ScheduledLaw)
    | Sliding(sliding: SlidingLaw)

  predicate Filters(d: Derivative) {
    d.n.Some? ==> d.n.value > 0.0
  }

  /** What the constructors accept. */
  predicate Accepted(law: Law) {
    match law
    case OnOff(r) => r.hysteresis >= 0.0
    case PID(l) => Filters(l.d)
    case Smith(l) => l.plant.tau > 0.0 && l.plant.dead >= 0.0
    case Scheduled(l) => l.rows != [] && Filters(l.pid.d)
    case Sliding(l) => l.k > 0.0 && l.lam > 0.0 && l.boundary > 0.0
    case _ => true
  }

  function Proportional(kp: real, b: real, reading: real, setpoint: real): real {
    kp * (b * setpoint - reading)
  }

  function Abs(x: real): real {
    if x < 0.0 then -x else x
  }

  function Clamp(x: real, low: real, high: real): real {
    if (if x > low then x else low) < high then (if x > low then x else low) else high
  }

  function Slope(from: real, to: real, dt: real): real
    requires dt > 0.0
  {
    (from - to) / dt
  }

  function TimeConstant(n: real): (lag: real)
    requires n > 0.0
    ensures lag > 0.0 && lag * n == 1.0
  {
    1.0 / n
  }

  /** A first-order lag of time constant `1 / n`. */
  function Filtered(filtered: real, rate: real, dt: real, n: real): real
    requires dt > 0.0 && n > 0.0
  {
    filtered + Scale(dt / (dt + TimeConstant(n)), rate - filtered)
  }

  function Scale(gain: real, x: real): real {
    gain * x
  }

  datatype Derived = Derived(d: Derivative, term: real)

  function StepDerivative(d: Derivative, dt: real, reading: real): Derived
    requires Filters(d)
  {
    if dt > 0.0 && d.lastReading.Some? then
      var rate := Slope(d.lastReading.value, reading, dt);
      if d.n.Some? then
        var filtered := Filtered(d.filtered, rate, dt, d.n.value);
        Derived(d.(lastReading := Some(reading), filtered := filtered), Scale(d.kd, filtered))
      else Derived(d.(lastReading := Some(reading)), Scale(d.kd, rate))
    else Derived(d.(lastReading := Some(reading)), 0.0)
  }

  function RowAt(rows: seq<Row>, setpoint: real): nat
    decreases |rows|
  {
    if rows == [] || rows[0].setpoint >= setpoint then 0 else 1 + RowAt(rows[1..], setpoint)
  }

  lemma {:induction false} RowAtSplits(rows: seq<Row>, setpoint: real)
    ensures var k := RowAt(rows, setpoint);
      k <= |rows| && (k < |rows| ==> rows[k].setpoint >= setpoint) && (k > 0 ==> rows[k - 1].setpoint < setpoint)
    decreases |rows|
  {
    if rows != [] && rows[0].setpoint < setpoint { RowAtSplits(rows[1..], setpoint); }
  }

  function Gains(rows: seq<Row>, setpoint: real): Row
    requires rows != []
  {
    var last := rows[|rows| - 1];
    if setpoint <= rows[0].setpoint then rows[0]
    else if setpoint >= last.setpoint then last
    else
      RowAtSplits(rows, setpoint);
      var k := RowAt(rows, setpoint);
      if k == 0 || k == |rows| then last
      else
        var low, high := rows[k - 1], rows[k];
        var weight := (setpoint - low.setpoint) / (high.setpoint - low.setpoint);
        Row(setpoint, low.kp + (high.kp - low.kp) * weight, low.ki + (high.ki - low.ki) * weight,
            low.kd + (high.kd - low.kd) * weight)
  }

  function Rescaled(i: Integral, ki: real, tt: real): Integral {
    i.(integral := if ki != i.ki && i.ki != 0.0 && ki != 0.0 then i.integral * (i.ki / ki) else i.integral,
       ki := ki, ttki := tt * ki)
  }

  function Schedule(l: ScheduledLaw, setpoint: real): ScheduledLaw
    requires l.rows != []
  {
    var gains := Gains(l.rows, setpoint);
    l.(pid := PidLaw(gains.kp, l.pid.b, Rescaled(l.pid.i, gains.ki, l.tt), l.pid.d.(kd := gains.kd)))
  }

  function Due(pipe: seq<Seen>, due: real): seq<Seen> {
    if |pipe| > 1 && pipe[1].elapsed <= due then Due(pipe[1..], due) else pipe
  }

  function Driven(m: Plant, setpoint: real, drive: real): real {
    m.gain * (m.feedforward * setpoint + drive)
  }

  function Lagged(exp: real -> real, tau: real, target: real, predicted: real, dt: real): real
    requires tau > 0.0
  {
    target + (predicted - target) * exp(-dt / tau)
  }

  /** The model's part of a Smith predictor's step. */
  function Predicted(l: SmithLaw, exp: real -> real, elapsed: real, setpoint: real, applied: Option<real>): SmithLaw
    requires l.plant.tau > 0.0
  {
    var dt := elapsed - l.pi.i.lastElapsed;
    if dt <= 0.0 then l
    else
      var m := l.plant;
      var driven := if applied.Some? then applied.value else l.lastOutput;
      var predicted := Lagged(exp, m.tau, Driven(m, setpoint, driven), l.predicted, dt);
      var due := elapsed - m.dead;
      var pipe := Due(l.pipe + [Seen(elapsed, predicted)], due);
      l.(predicted := predicted, pipe := pipe,
         delayed := if pipe != [] && pipe[0].elapsed <= due then pipe[0].predicted else l.delayed)
  }

  datatype PiOut = PiOut(law: PiLaw, correction: real)

  function PiStep(l: PiLaw, elapsed: real, reading: real, setpoint: real, applied: Option<real>): PiOut {
    var advanced := StepIntegral(l.i, setpoint - reading, elapsed, applied).i;
    var output := Proportional(l.kp, l.b, reading, setpoint) + Contribution(advanced);
    PiOut(l.(i := advanced.(lastRaw := Some(output))), output)
  }

  datatype PidOut = PidOut(law: PidLaw, correction: real)

  function PidStep(l: PidLaw, elapsed: real, reading: real, setpoint: real, applied: Option<real>): PidOut
    requires Filters(l.d)
  {
    var advanced := StepIntegral(l.i, setpoint - reading, elapsed, applied);
    var derived := StepDerivative(l.d, advanced.dt, reading);
    var output := Proportional(l.kp, l.b, reading, setpoint) + Contribution(advanced.i) + derived.term;
    PidOut(l.(i := advanced.i.(lastRaw := Some(output)), d := derived.d), output)
  }

  function Surface(lam: real, error: real, integral: real): real {
    error + lam * integral
  }

  function Saturated(k: real, boundary: real, surface: real): real
    requires boundary > 0.0
  {
    k * Clamp(surface / boundary, -1.0, 1.0)
  }

  datatype SlidingOut = SlidingOut(law: SlidingLaw, correction: real)

  function SlidingStep(l: SlidingLaw, elapsed: real, reading: real, setpoint: real): SlidingOut
    requires l.boundary > 0.0
  {
    var error := setpoint - reading;
    var dt := elapsed - l.lastElapsed;
    var surface := Surface(l.lam, error, l.integral);
    var runs := dt >= 0.0 && (Abs(surface) < l.boundary || surface * error < 0.0);
    var integral := if runs then l.integral + error * dt else l.integral;
    SlidingOut(l.(integral := integral, lastElapsed := if dt >= 0.0 then elapsed else l.lastElapsed),
               Saturated(l.k, l.boundary, Surface(l.lam, error, integral)))
  }

  datatype Output = Output(law: Law, correction: real)

  function Step(law: Law, exp: real -> real, elapsed: real, reading: real, setpoint: real,
      applied: Option<real>): Output
    requires Accepted(law)
  {
    match law
    case OpenLoop => Output(law, 0.0)
    case P(gain) => Output(law, gain * (setpoint - reading))
    case PI(l) =>
      var out := PiStep(l, elapsed, reading, setpoint, applied);
      Output(PI(out.law), out.correction)
    case PID(l) =>
      var out := PidStep(l, elapsed, reading, setpoint, applied);
      Output(PID(out.law), out.correction)
    case OnOff(r) =>
      var error := setpoint - reading;
      var on := if error > r.hysteresis then true else if error < -r.hysteresis then false else r.on;
      Output(OnOff(r.(on := on)), if on then r.high else r.low)
    case Smith(l) =>
      var m := Predicted(l, exp, elapsed, setpoint, applied);
      var out := PiStep(m.pi, elapsed, reading + (m.predicted - m.delayed), setpoint, applied);
      Output(Smith(m.(pi := out.law, lastOutput := out.correction)), out.correction)
    case Scheduled(l) =>
      var s := Schedule(l, setpoint);
      var out := PidStep(s.pid, elapsed, reading, setpoint, applied);
      Output(Scheduled(s.(pid := out.law)), out.correction)
    case Sliding(l) =>
      var out := SlidingStep(l, elapsed, reading, setpoint);
      Output(Sliding(out.law), out.correction)
  }

  function Reset(law: Law): Law {
    match law
    case PI(l) => PI(l.(i := Cleared(l.i)))
    case PID(l) => PID(l.(i := Cleared(l.i)))
    case OnOff(r) => OnOff(r.(on := false))
    case Smith(l) => Smith(SmithLaw(l.pi.(i := Cleared(l.pi.i)), l.plant, 0.0, 0.0, [], 0.0))
    case Scheduled(l) => Scheduled(l.(pid := l.pid.(i := Cleared(l.pid.i))))
    case Sliding(l) => Sliding(l.(integral := 0.0, lastElapsed := 0.0))
    case _ => law
  }

  /** A reset forgets the run and keeps the law: nothing integrated, no time gone, nothing predicted or on its
      way, off; of a derivative it leaves the last reading as it is. */
  lemma {:induction false} ResetForgets(law: Law)
    ensures var r := Reset(law);
      && (law.OpenLoop? || law.P? ==> r == law)
      && (law.PI? ==> r == PI(law.pi.(i := r.pi.i)) && Fresh(law.pi.i, r.pi.i))
      && (law.PID? ==> r == PID(law.pid.(i := r.pid.i)) && Fresh(law.pid.i, r.pid.i))
      && (law.OnOff? ==> r == OnOff(law.relay.(on := r.relay.on)) && !r.relay.on)
      && (law.Smith? ==>
            && r.Smith? && r.smith.pi == law.smith.pi.(i := r.smith.pi.i) && Fresh(law.smith.pi.i, r.smith.pi.i)
            && r.smith.plant == law.smith.plant && r.smith.pipe == []
            && r.smith.predicted == r.smith.delayed == r.smith.lastOutput == 0.0)
      && (law.Scheduled? ==>
            && r == Scheduled(law.scheduled.(pid := law.scheduled.pid.(i := r.scheduled.pid.i)))
            && Fresh(law.scheduled.pid.i, r.scheduled.pid.i))
      && (law.Sliding? ==>
            && r == Sliding(law.sliding.(integral := r.sliding.integral, lastElapsed := r.sliding.lastElapsed))
            && r.sliding.integral == r.sliding.lastElapsed == 0.0)
  {
  }

  /** The same gains, with nothing integrated and no time gone. */
  predicate Fresh(before: Integral, after: Integral) {
    && after.ki == before.ki && after.ttki == before.ttki
    && after.integral == 0.0 && after.lastElapsed == 0.0 && after.lastRaw.None?
  }

  function PiResume(l: PiLaw, reading: real, setpoint: real, correction: real): PiOut {
    var r := ResumeIntegral(l.i, Proportional(l.kp, l.b, reading, setpoint), correction);
    PiOut(l.(i := r.i), r.seeded)
  }

  function PidResume(l: PidLaw, reading: real, setpoint: real, correction: real): PidOut {
    var r := ResumeIntegral(l.i, Proportional(l.kp, l.b, reading, setpoint), correction);
    PidOut(l.(i := r.i, d := l.d.(lastReading := Some(reading))), r.seeded)
  }

  /** The surface that calls for a correction. */
  function Wanted(k: real, boundary: real, correction: real): real
    requires k > 0.0
  {
    correction * boundary / k
  }

  /** The integral that puts the surface at `surface`. */
  function Seed(lam: real, surface: real, error: real): real
    requires lam > 0.0
  {
    (surface - error) / lam
  }

  function SlidingResume(l: SlidingLaw, reading: real, setpoint: real, correction: real): SlidingOut
    requires l.k > 0.0 && l.lam > 0.0
  {
    var wanted := Clamp(correction, -l.k, l.k);
    SlidingOut(l.(integral := Seed(l.lam, Wanted(l.k, l.boundary, wanted), setpoint - reading), lastElapsed := 0.0), wanted)
  }

  /** Re-enter control at an instant; the correction is what was seeded. */
  function Resume(law: Law, reading: real, setpoint: real, correction: real): Output
    requires Accepted(law)
  {
    match law
    case OpenLoop => Output(law, correction)
    case P(gain) => Output(law, gain * (setpoint - reading))
    case PI(l) =>
      var out := PiResume(l, reading, setpoint, correction);
      Output(PI(out.law), out.correction)
    case PID(l) =>
      var out := PidResume(l, reading, setpoint, correction);
      Output(PID(out.law), out.correction)
    case OnOff(r) =>
      var on := Abs(correction - r.high) <= Abs(correction - r.low);
      Output(OnOff(r.(on := on)), if on then r.high else r.low)
    case Smith(l) =>
      var rest := Driven(l.plant, setpoint, correction);
      var out := PiResume(l.pi, reading, setpoint, correction);
      Output(Smith(SmithLaw(out.law, l.plant, rest, rest, [], correction)), out.correction)
    case Scheduled(l) =>
      var s := Schedule(l, setpoint);
      var out := PidResume(s.pid, reading, setpoint, correction);
      Output(Scheduled(s.(pid := out.law)), out.correction)
    case Sliding(l) =>
      var out := SlidingResume(l, reading, setpoint, correction);
      Output(Sliding(out.law), out.correction)
  }

  // Bumpless handover.

  predicate Integrates(law: Law) {
    law.PI? || law.PID? || law.Smith? || (law.Scheduled? && law.scheduled.rows != [])
  }

  /** The `ki` in force at a setpoint. */
  function KiAt(law: Law, setpoint: real): real
    requires Integrates(law)
  {
    match law
    case PI(l) => l.i.ki
    case PID(l) => l.i.ki
    case Smith(l) => l.pi.i.ki
    case Scheduled(l) => Gains(l.rows, setpoint).ki
  }

  function KpTerm(law: Law, reading: real, setpoint: real): real
    requires Integrates(law)
  {
    match law
    case PI(l) => Proportional(l.kp, l.b, reading, setpoint)
    case PID(l) => Proportional(l.kp, l.b, reading, setpoint)
    case Smith(l) => Proportional(l.pi.kp, l.pi.b, reading, setpoint)
    case Scheduled(l) => Proportional(Gains(l.rows, setpoint).kp, l.pid.b, reading, setpoint)
  }

  /** Which corrections a law can take up at a reading and a setpoint. */
  predicate CanHold(law: Law, reading: real, setpoint: real, correction: real)
    requires Accepted(law)
  {
    match law
    case OpenLoop => true
    case P(gain) => correction == gain * (setpoint - reading)
    case OnOff(r) => correction == r.high || correction == r.low
    case Sliding(l) => -l.k <= correction <= l.k
    case _ => KiAt(law, setpoint) != 0.0 || correction == KpTerm(law, reading, setpoint)
  }

  /** `resume` seeds exactly what was held where the law can hold it, and only there: with a non-zero
      `ki` anything, under sliding mode anything within its limits. */
  lemma {:induction false} SeedsWhatItCanHold(law: Law, reading: real, setpoint: real, correction: real)
    requires Accepted(law)
    ensures Resume(law, reading, setpoint, correction).correction == correction <==> CanHold(law, reading, setpoint, correction)
  {
  }

  /** Where the first step gives back what `resume` seeded: everywhere but in an open loop, which steps
      to nothing, and a relay whose reading is outside the dead band on the other side. */
  predicate Reproduces(law: Law, reading: real, setpoint: real, correction: real) {
    match law
    case OpenLoop => correction == 0.0
    case OnOff(r) =>
      var error := setpoint - reading;
      || r.high == r.low
      || (if Abs(correction - r.high) <= Abs(correction - r.low) then error >= -r.hysteresis else error <= r.hysteresis)
    case _ => true
  }

  lemma {:induction false} FirstIntegralStep(i: Integral, kpTerm: real, correction: real, error: real,
      applied: Option<real>)
    ensures var r := ResumeIntegral(i, kpTerm, correction);
      var a := StepIntegral(r.i, error, 0.0, applied);
      && a.dt == 0.0 && a.i == r.i && kpTerm + Contribution(a.i) == r.seeded
      && r.i.lastElapsed == 0.0 && r.i.ki == i.ki && r.i.ttki == i.ttki
  {
  }

  lemma {:induction false} PiReproduces(l: PiLaw, reading: real, setpoint: real, correction: real,
      applied: Option<real>)
    ensures var r := PiResume(l, reading, setpoint, correction);
      PiStep(r.law, 0.0, reading, setpoint, applied).correction == r.correction && r.law.i.lastElapsed == 0.0
  {
  }

  lemma {:induction false} PidReproduces(l: PidLaw, reading: real, setpoint: real, correction: real,
      applied: Option<real>)
    requires Filters(l.d)
    ensures var r := PidResume(l, reading, setpoint, correction);
      && Filters(r.law.d)
      && PidStep(r.law, 0.0, reading, setpoint, applied).correction == r.correction
      && r.law.i.ki == l.i.ki && r.law.i.ttki == l.i.ttki && r.law.kp == l.kp && r.law.d.kd == l.d.kd && r.law.b == l.b
  {
    hide StepIntegral, ResumeIntegral, Contribution, Proportional;
    FirstIntegralStep(l.i, Proportional(l.kp, l.b, reading, setpoint), correction, setpoint - reading, applied);
  }

  /** The gains are those of the setpoint already: scheduling again changes nothing. */
  lemma {:induction false} ScheduledAlready(l: ScheduledLaw, setpoint: real, pid: PidLaw)
    requires l.rows != []
    requires var s := Schedule(l, setpoint).pid;
      pid.i.ki == s.i.ki && pid.i.ttki == s.i.ttki && pid.kp == s.kp && pid.d.kd == s.d.kd
    ensures Schedule(l.(pid := pid), setpoint).pid == pid
  {
  }

  /** The first step at that instant, on that reading and setpoint and whatever was last applied,
      returns what was seeded. */
  lemma {:induction false} FirstStepReproduces(law: Law, exp: real -> real, reading: real, setpoint: real,
      correction: real, applied: Option<real>)
    requires Accepted(law)
    ensures var resumed := Resume(law, reading, setpoint, correction);
      && Accepted(resumed.law)
      && (Step(resumed.law, exp, 0.0, reading, setpoint, applied).correction == resumed.correction
          <==> Reproduces(law, reading, setpoint, correction))
  {
    hide Gains, PiStep, PidStep, PiResume, PidResume, Schedule, SlidingStep, SlidingResume;
    match law
    case OpenLoop =>
    case P(gain) =>
    case PI(l) => PiReproduces(l, reading, setpoint, correction, applied);
    case PID(l) => PidReproduces(l, reading, setpoint, correction, applied);
    case OnOff(r) => RelayReproduces(r, exp, reading, setpoint, correction, applied);
    case Smith(l) => PiReproduces(l.pi, reading, setpoint, correction, applied);
    case Scheduled(l) => ScheduledReproduces(l, exp, reading, setpoint, correction, applied);
    case Sliding(l) => SlidingReproduces(l, reading, setpoint, correction);
  }

  lemma {:induction false} RelayReproduces(r: Relay, exp: real -> real, reading: real, setpoint: real, correction: real,
      applied: Option<real>)
    requires Accepted(OnOff(r))
    ensures var resumed := Resume(OnOff(r), reading, setpoint, correction);
      && Accepted(resumed.law)
      && (Step(resumed.law, exp, 0.0, reading, setpoint, applied).correction == resumed.correction
          <==> Reproduces(OnOff(r), reading, setpoint, correction))
  {
  }

  lemma {:induction false} ScheduledReproduces(l: ScheduledLaw, exp: real -> real, reading: real, setpoint: real,
      correction: real, applied: Option<real>)
    requires Accepted(Scheduled(l))
    ensures var resumed := Resume(Scheduled(l), reading, setpoint, correction);
      && Accepted(resumed.law)
      && Step(resumed.law, exp, 0.0, reading, setpoint, applied).correction == resumed.correction
  {
    hide Gains, PidStep, PidResume, Schedule;
    var s := Schedule(l, setpoint);
    ScheduleKeeps(l, setpoint);
    PidReproduces(s.pid, reading, setpoint, correction, applied);
    ScheduledAlready(l, setpoint, PidResume(s.pid, reading, setpoint, correction).law);
    SchedulesAlike(l, s.(pid := PidResume(s.pid, reading, setpoint, correction).law), setpoint);
  }

  lemma {:induction false} ScheduleKeeps(l: ScheduledLaw, setpoint: real)
    requires l.rows != [] && Filters(l.pid.d)
    ensures var s := Schedule(l, setpoint); s.rows == l.rows && s.tt == l.tt && Filters(s.pid.d)
  {
  }

  lemma {:induction false} SchedulesAlike(l: ScheduledLaw, m: ScheduledLaw, setpoint: real)
    requires l.rows != [] && m.rows == l.rows && m.tt == l.tt
    ensures Schedule(m, setpoint) == Schedule(l.(pid := m.pid), setpoint)
    ensures m == l.(pid := m.pid)
  {
  }

  lemma {:induction false} SurfaceOfSeed(lam: real, surface: real, error: real)
    requires lam > 0.0
    ensures Surface(lam, error, Seed(lam, surface, error)) == surface
  {
    Divides(surface - error, lam);
  }

  lemma {:induction false} Divides(a: real, d: real)
    requires d != 0.0
    ensures a / d * d == a && d * (a / d) == a
  {
  }

  lemma {:induction false} SaturatedOfWanted(k: real, boundary: real, correction: real)
    requires k > 0.0 && boundary > 0.0 && -k <= correction <= k
    ensures Saturated(k, boundary, Wanted(k, boundary, correction)) == correction
  {
    var surface := Wanted(k, boundary, correction);
    var q := surface / boundary;
    Divides(correction * boundary, k);
    Divides(surface, boundary);
    assert (q * k) * boundary == (q * boundary) * k;
    SameFactor(q * k, correction, boundary);
    WithinOne(q, k, correction);
  }

  lemma {:induction false} WithinOne(q: real, k: real, c: real)
    requires k > 0.0 && q * k == c && -k <= c <= k
    ensures -1.0 <= q <= 1.0
  {
    if q > 1.0 {
      Grows(q, 1.0, k);
    } else if q < -1.0 {
      Grows(-1.0, q, k);
    }
  }

  lemma {:induction false} Grows(a: real, b: real, k: real)
    requires a > b && k > 0.0
    ensures a * k > b * k
  {
  }

  lemma {:induction false} NoTimePasses(l: SlidingLaw, reading: real, setpoint: real)
    requires l.boundary > 0.0 && l.lastElapsed == 0.0
    ensures var out := SlidingStep(l, 0.0, reading, setpoint);
      && out.law == l
      && out.correction == Saturated(l.k, l.boundary, Surface(l.lam, setpoint - reading, l.integral))
  {
    hide Saturated;
    assert (setpoint - reading) * 0.0 == 0.0;
  }

  lemma {:induction false} SlidingReproduces(l: SlidingLaw, reading: real, setpoint: real, correction: real)
    requires Accepted(Sliding(l))
    ensures var r := SlidingResume(l, reading, setpoint, correction);
      && Accepted(Sliding(r.law))
      && SlidingStep(r.law, 0.0, reading, setpoint).correction == r.correction
  {
    hide SlidingStep, Saturated, Wanted, Surface, Seed;
    var wanted := Clamp(correction, -l.k, l.k);
    NoTimePasses(SlidingResume(l, reading, setpoint, correction).law, reading, setpoint);
    SurfaceOfSeed(l.lam, Wanted(l.k, l.boundary, wanted), setpoint - reading);
    SaturatedOfWanted(l.k, l.boundary, wanted);
  }

  /** Sliding mode never asks for more than its limit, whatever its integral. */
  lemma {:induction false} SlidingIsLimited(l: SlidingLaw, elapsed: real, reading: real, setpoint: real)
    requires Accepted(Sliding(l))
    ensures -l.k <= SlidingStep(l, elapsed, reading, setpoint).correction <= l.k
  {
    var c := Clamp(Surface(l.lam, setpoint - reading, SlidingStep(l, elapsed, reading, setpoint).law.integral) / l.boundary, -1.0, 1.0);
    Scaled(l.k, c);
  }

  lemma {:induction false} Scaled(k: real, c: real)
    requires k > 0.0 && -1.0 <= c <= 1.0
    ensures -k <= k * c <= k
  {
  }

  lemma {:induction false} NotNegative(a: real, b: real)
    requires a >= 0.0 && b >= 0.0
    ensures a * b >= 0.0
  {
  }

  // What each law asks for, in gains, readings and setpoints.

  /** The integral after a step: `error` for as long as it lasted, and what was not delivered let back out;
      time that runs back adds nothing and is not seen. */
  ghost predicate Accumulates(i: Integral, next: Integral, error: real, elapsed: real, applied: Option<real>) {
    && next.ki == i.ki && next.ttki == i.ttki
    && if elapsed < i.lastElapsed then next.integral == i.integral && next.lastElapsed == i.lastElapsed
       else
         && next.lastElapsed == elapsed
         && next.integral - i.integral - error * (elapsed - i.lastElapsed)
            == if i.ttki != 0.0 && applied.Some? && i.lastRaw.Some?
               then (applied.value - i.lastRaw.value) * (elapsed - i.lastElapsed) / i.ttki else 0.0
  }

  lemma {:induction false} IntegralAccumulates(i: Integral, error: real, elapsed: real, applied: Option<real>)
    ensures var out := StepIntegral(i, error, elapsed, applied);
      && Accumulates(i, out.i, error, elapsed, applied)
      && out.dt == if elapsed < i.lastElapsed then 0.0 else elapsed - i.lastElapsed
  {
  }

  /** What a PI puts out besides the integral's share is `kp` times the error, the setpoint weighted by `b`:
      with `b = 1` it has the sign of the error. */
  lemma {:induction false} PiActs(l: PiLaw, elapsed: real, reading: real, setpoint: real, applied: Option<real>)
    ensures var out := PiStep(l, elapsed, reading, setpoint, applied);
      var rest := out.correction - out.law.i.integral * l.i.ki;
      && rest == l.kp * (l.b * setpoint - reading)
      && (l.b == 1.0 && l.kp > 0.0 ==> (rest > 0.0 <==> setpoint > reading) && (rest < 0.0 <==> setpoint < reading))
      && Accumulates(l.i, out.law.i, setpoint - reading, elapsed, applied) && out.law.i.lastRaw == Some(out.correction)
      && out.law.kp == l.kp && out.law.b == l.b
  {
    hide StepIntegral;
    IntegralAccumulates(l.i, setpoint - reading, elapsed, applied);
    if l.kp > 0.0 { SignOf(l.kp, l.b * setpoint - reading); }
  }

  lemma {:induction false} SignOf(k: real, x: real)
    requires k > 0.0
    ensures (k * x > 0.0 <==> x > 0.0) && (k * x < 0.0 <==> x < 0.0)
  {
  }

  /** The derivative acts once there is a reading before this one and time has passed since. */
  predicate Derives(l: PidLaw, elapsed: real) {
    l.d.lastReading.Some? && elapsed > l.i.lastElapsed
  }

  /** A PID is a PI with a derivative on the reading: where none acts, just that. */
  lemma {:induction false} PidActs(l: PidLaw, elapsed: real, reading: real, setpoint: real, applied: Option<real>)
    requires Filters(l.d)
    ensures var out := PidStep(l, elapsed, reading, setpoint, applied);
      var rest := out.correction - out.law.i.integral * l.i.ki;
      && (!Derives(l, elapsed) ==>
            && rest == l.kp * (l.b * setpoint - reading) && out.law.d.filtered == l.d.filtered
            && (l.b == 1.0 && l.kp > 0.0 ==> (rest > 0.0 <==> setpoint > reading) && (rest < 0.0 <==> setpoint < reading)))
      && Accumulates(l.i, out.law.i, setpoint - reading, elapsed, applied) && out.law.i.lastRaw == Some(out.correction)
      && out.law.kp == l.kp && out.law.b == l.b && out.law.d.kd == l.d.kd && out.law.d.n == l.d.n
      && out.law.d.lastReading == Some(reading)
  {
    hide StepIntegral, Filtered, Slope, Scale;
    IntegralAccumulates(l.i, setpoint - reading, elapsed, applied);
    if l.kp > 0.0 { SignOf(l.kp, l.b * setpoint - reading); }
  }

  /** Unfiltered, it takes `kd` times the rate at which the reading rises off the output. */
  lemma {:induction false} DerivativeOpposes(l: PidLaw, elapsed: real, reading: real, setpoint: real,
      applied: Option<real>)
    requires Derives(l, elapsed) && l.d.n.None?
    ensures var out := PidStep(l, elapsed, reading, setpoint, applied);
      var term := out.correction - out.law.i.integral * l.i.ki - l.kp * (l.b * setpoint - reading);
      && term * (elapsed - l.i.lastElapsed) == -l.d.kd * (reading - l.d.lastReading.value)
      && (l.d.kd > 0.0 ==>
            (term < 0.0 <==> reading > l.d.lastReading.value) && (term > 0.0 <==> reading < l.d.lastReading.value))
  {
    hide PidStep;
    DerivativeTerm(l, elapsed, reading, setpoint, applied);
    var dt, fall := elapsed - l.i.lastElapsed, l.d.lastReading.value - reading;
    var rate := Slope(l.d.lastReading.value, reading, dt);
    assert rate * dt == fall;
    Rate(l.d.kd, rate, dt, fall);
  }

  lemma {:induction false} DerivativeTerm(l: PidLaw, elapsed: real, reading: real, setpoint: real, applied: Option<real>)
    requires Derives(l, elapsed) && l.d.n.None?
    ensures var out := PidStep(l, elapsed, reading, setpoint, applied);
      out.correction - out.law.i.integral * l.i.ki - l.kp * (l.b * setpoint - reading)
      == Scale(l.d.kd, Slope(l.d.lastReading.value, reading, elapsed - l.i.lastElapsed))
  {
    hide StepIntegral, Scale, Slope, Filtered;
    IntegralAccumulates(l.i, setpoint - reading, elapsed, applied);
  }

  lemma {:induction false} Rate(kd: real, rate: real, dt: real, fall: real)
    requires dt > 0.0 && rate * dt == fall
    ensures kd * rate * dt == kd * fall
    ensures kd > 0.0 ==> (kd * rate > 0.0 <==> fall > 0.0) && (kd * rate < 0.0 <==> fall < 0.0)
  {
    SignOf(dt, rate);
    if kd > 0.0 { SignOf(kd, rate); }
  }

  /** Filtered, it takes `kd` times a rate that goes from the last one part of the way to the reading's own,
      in the proportion of the step to the step and the filter's time constant `1 / n`. */
  lemma {:induction false} DerivativeIsFiltered(l: PidLaw, elapsed: real, reading: real, setpoint: real,
      applied: Option<real>, rate: real)
    requires Derives(l, elapsed) && l.d.n.Some? && l.d.n.value > 0.0
    requires rate * (elapsed - l.i.lastElapsed) == l.d.lastReading.value - reading
    ensures var out := PidStep(l, elapsed, reading, setpoint, applied);
      var (dt, filtered) := (elapsed - l.i.lastElapsed, out.law.d.filtered);
      && out.correction - out.law.i.integral * l.i.ki - l.kp * (l.b * setpoint - reading) == l.d.kd * filtered
      && (filtered - l.d.filtered) * (dt + TimeConstant(l.d.n.value)) == (rate - l.d.filtered) * dt
      && (l.d.filtered <= rate ==> l.d.filtered <= filtered <= rate)
      && (l.d.filtered >= rate ==> l.d.filtered >= filtered >= rate)
  {
    hide StepIntegral;
    IntegralAccumulates(l.i, setpoint - reading, elapsed, applied);
    var dt := elapsed - l.i.lastElapsed;
    RateIs(l.d.lastReading.value, reading, dt, rate);
    PartOfTheWay(l.d.filtered, rate, dt, l.d.n.value);
  }

  lemma {:induction false} RateIs(from: real, to: real, dt: real, rate: real)
    requires dt > 0.0 && rate * dt == from - to
    ensures Slope(from, to, dt) == rate
  {
    assert Slope(from, to, dt) * dt == rate * dt;
    SameFactor(Slope(from, to, dt), rate, dt);
  }

  lemma {:induction false} PartOfTheWay(filtered: real, rate: real, dt: real, n: real)
    requires dt > 0.0 && n > 0.0
    ensures var next := Filtered(filtered, rate, dt, n);
      && (next - filtered) * (dt + TimeConstant(n)) == (rate - filtered) * dt
      && (filtered <= rate ==> filtered <= next <= rate) && (filtered >= rate ==> filtered >= next >= rate)
  {
    hide TimeConstant, Scale;
    var lag := TimeConstant(n);
    var share := dt / (dt + lag);
    assert share * (dt + lag) == dt;
    Weighted(share, dt, lag, rate - filtered);
  }

  lemma {:induction false} Weighted(share: real, dt: real, lag: real, gap: real)
    requires dt > 0.0 && lag > 0.0 && share * (dt + lag) == dt
    ensures Scale(share, gap) * (dt + lag) == gap * dt
    ensures (gap >= 0.0 ==> 0.0 <= Scale(share, gap) <= gap) && (gap <= 0.0 ==> 0.0 >= Scale(share, gap) >= gap)
  {
    SignOf(dt + lag, share);
    if share > 1.0 { Grows(share, 1.0, dt + lag); }
    if gap >= 0.0 {
      NotNegative(share, gap);
      NotNegative(1.0 - share, gap);
    } else {
      NotNegative(share, -gap);
      NotNegative(1.0 - share, -gap);
    }
  }

  // The textbook form.

  datatype Input = Input(elapsed: real, reading: real, setpoint: real, applied: real)

  function PiRun(l: PiLaw, inputs: seq<Input>): PiLaw
    decreases |inputs|
  {
    if inputs == [] then l
    else
      var x := inputs[|inputs| - 1];
      PiStep(PiRun(l, inputs[..|inputs| - 1]), x.elapsed, x.reading, x.setpoint, Some(x.applied)).law
  }

  /** What each step asked for was delivered by the next, and time does not run back. */
  predicate InFull(l: PiLaw, inputs: seq<Input>) {
    forall k: nat :: k < |inputs| ==> Follows(l, inputs, k)
  }

  predicate Follows(l: PiLaw, inputs: seq<Input>, k: nat)
    requires k < |inputs|
  {
    && inputs[k].elapsed >= (if k == 0 then 0.0 else inputs[k - 1].elapsed)
    && (k > 0 ==> PiRun(l, inputs[..k]).i.lastRaw == Some(inputs[k].applied))
  }

  /** The sum of each error times the time since the step before it. */
  function ErrorTime(inputs: seq<Input>): real
    decreases |inputs|
  {
    if inputs == [] then 0.0
    else
      var (n, x) := (|inputs| - 1, inputs[|inputs| - 1]);
      ErrorTime(inputs[..n])
      + Area(x.setpoint - x.reading, x.elapsed - if n == 0 then 0.0 else inputs[n - 1].elapsed)
  }

  lemma {:induction false} InFullBefore(l: PiLaw, inputs: seq<Input>)
    requires InFull(l, inputs) && inputs != []
    ensures InFull(l, inputs[..|inputs| - 1])
  {
    hide PiRun;
    var before := inputs[..|inputs| - 1];
    forall k: nat | k < |before| ensures Follows(l, before, k) {
      assert Follows(l, inputs, k) && before[..k] == inputs[..k];
    }
  }

  lemma {:induction false} RunIntegrates(l: PiLaw, inputs: seq<Input>)
    requires InFull(l, inputs) && l.i.integral == 0.0 && l.i.lastRaw.None? && l.i.lastElapsed == 0.0
    ensures var r := PiRun(l, inputs);
      && r.i.integral == ErrorTime(inputs) && r.i.ki == l.i.ki && r.i.ttki == l.i.ttki && r.kp == l.kp && r.b == l.b
      && r.i.lastElapsed == (if inputs == [] then 0.0 else inputs[|inputs| - 1].elapsed)
    decreases |inputs|
  {
    hide PiStep, Area;
    if inputs != [] {
      var n := |inputs| - 1;
      var (before, x) := (inputs[..n], inputs[n]);
      InFullBefore(l, inputs);
      RunIntegrates(l, before);
      assert Follows(l, inputs, n);
      StepInFull(PiRun(l, before), x);
    }
  }

  lemma {:induction false} StepInFull(l: PiLaw, x: Input)
    requires x.elapsed >= l.i.lastElapsed && (l.i.lastRaw.None? || l.i.lastRaw == Some(x.applied))
    ensures var r := PiStep(l, x.elapsed, x.reading, x.setpoint, Some(x.applied)).law;
      && r.i.integral == l.i.integral + Area(x.setpoint - x.reading, x.elapsed - l.i.lastElapsed)
      && r.i.lastElapsed == x.elapsed && r.i.ki == l.i.ki && r.i.ttki == l.i.ttki && r.kp == l.kp && r.b == l.b
  {
    hide Area, Back;
    if l.i.ttki != 0.0 { NothingBack(x.elapsed - l.i.lastElapsed, l.i.ttki); }
  }

  /** From a reset, with everything asked for delivered, a PI is the textbook one: `kp` times the weighted
      error and `ki` times the sum of the errors, each for as long as it lasted. */
  lemma {:induction false} TextbookPi(l: PiLaw, inputs: seq<Input>)
    requires inputs != [] && InFull(l, inputs) && l.i.integral == 0.0 && l.i.lastRaw.None? && l.i.lastElapsed == 0.0
    ensures var (x, r) := (inputs[|inputs| - 1], PiRun(l, inputs));
      && r.i.lastRaw.Some?
      && r.i.lastRaw.value == l.kp * (l.b * x.setpoint - x.reading) + ErrorTime(inputs) * l.i.ki
  {
    hide PiStep, ErrorTime, InFull;
    var n := |inputs| - 1;
    var x := inputs[n];
    InFullBefore(l, inputs);
    RunIntegrates(l, inputs[..n]);
    RunIntegrates(l, inputs);
    PiActs(PiRun(l, inputs[..n]), x.elapsed, x.reading, x.setpoint, Some(x.applied));
    PiOutput(PiRun(l, inputs[..n]), l, PiRun(l, inputs), inputs);
  }

  lemma {:induction false} PiOutput(before: PiLaw, l: PiLaw, after: PiLaw, inputs: seq<Input>)
    requires inputs != [] && after.i.lastRaw.Some?
    requires var x := inputs[|inputs| - 1];
      after.i.lastRaw.value - after.i.integral * before.i.ki == before.kp * (before.b * x.setpoint - x.reading)
    requires before.kp == l.kp && before.b == l.b && before.i.ki == l.i.ki && after.i.integral == ErrorTime(inputs)
    ensures var x := inputs[|inputs| - 1];
      after.i.lastRaw.value == l.kp * (l.b * x.setpoint - x.reading) + ErrorTime(inputs) * l.i.ki
  {
    hide ErrorTime;
  }

  // The Smith predictor.

  /** `history` is what was predicted and when. The predictor keeps the end of it, from no later than the last
      that is as old as the dead time; that one is what it takes the reading to show now. */
  ghost predicate Remembers(l: SmithLaw, history: seq<Seen>, now: real) {
    && InTime(history, now)
    && (history != [] ==> l.pipe != []) && |l.pipe| <= |history| && l.pipe == history[|history| - |l.pipe|..]
    && (|l.pipe| < |history| ==> l.pipe[0].elapsed <= now - l.plant.dead)
    && (forall k: nat :: k < |history| && LastDue(history, k, now - l.plant.dead) ==> l.delayed == history[k].predicted)
  }

  ghost predicate InTime(history: seq<Seen>, now: real) {
    && (forall j, k :: 0 <= j < k < |history| ==> history[j].elapsed < history[k].elapsed)
    && (forall k :: 0 <= k < |history| ==> history[k].elapsed <= now)
  }

  /** Entry `k` is the last not after `due`. */
  ghost predicate LastDue(history: seq<Seen>, k: nat, due: real)
    requires k < |history|
  {
    history[k].elapsed <= due && (k + 1 < |history| ==> history[k + 1].elapsed > due)
  }

  lemma {:induction false} DueIs(pipe: seq<Seen>, due: real) returns (m: nat)
    requires pipe != []
    ensures m < |pipe| && Due(pipe, due) == pipe[m..]
    ensures (m > 0 ==> pipe[m].elapsed <= due) && (m + 1 < |pipe| ==> pipe[m + 1].elapsed > due)
    decreases |pipe|
  {
    m := 0;
    if |pipe| > 1 && pipe[1].elapsed <= due {
      var k := DueIs(pipe[1..], due);
      m := k + 1;
      assert pipe[1..][k..] == pipe[m..];
    }
  }

  /** The model moves towards `gain * (feedforward * setpoint + what was delivered)` as a lag does, and so
      its delayed output is always what it had predicted by one dead time ago. */
  lemma {:induction false} SmithPredicts(l: SmithLaw, exp: real -> real, elapsed: real, setpoint: real,
      applied: Option<real>, history: seq<Seen>)
    requires l.plant.tau > 0.0 && l.plant.dead >= 0.0 && elapsed > l.pi.i.lastElapsed
    requires Remembers(l, history, l.pi.i.lastElapsed)
    ensures var out := Predicted(l, exp, elapsed, setpoint, applied);
      var target := l.plant.gain * (l.plant.feedforward * setpoint + if applied.Some? then applied.value else l.lastOutput);
      && out.predicted - target == (l.predicted - target) * exp(-(elapsed - l.pi.i.lastElapsed) / l.plant.tau)
      && Remembers(out, history + [Seen(elapsed, out.predicted)], elapsed)
      && out.pi == l.pi && out.plant == l.plant && out.lastOutput == l.lastOutput
  {
    var out := Predicted(l, exp, elapsed, setpoint, applied);
    RemembersMore(l, out, history, elapsed);
  }

  lemma {:induction false} RemembersMore(l: SmithLaw, out: SmithLaw, history: seq<Seen>, elapsed: real)
    requires l.plant.dead >= 0.0 && elapsed > l.pi.i.lastElapsed && Remembers(l, history, l.pi.i.lastElapsed)
    requires var due := elapsed - l.plant.dead;
      && out.pipe == Due(l.pipe + [Seen(elapsed, out.predicted)], due) && out.plant == l.plant
      && out.delayed == if out.pipe != [] && out.pipe[0].elapsed <= due then out.pipe[0].predicted else l.delayed
    ensures Remembers(out, history + [Seen(elapsed, out.predicted)], elapsed)
  {
    hide InTime, LastDue, Due;
    var (due, next) := (elapsed - l.plant.dead, Seen(elapsed, out.predicted));
    var longer := history + [next];
    var at := DueOfEnd(history, |history| - |l.pipe|, next, due);
    InTimeMore(history, l.pi.i.lastElapsed, next);
    forall k: nat | k < |longer| && LastDue(longer, k, due) ensures out.delayed == longer[k].predicted {
      OnlyOneIsLast(longer, elapsed, due, k, at);
    }
  }

  lemma {:induction false} DueOfEnd(history: seq<Seen>, from: nat, next: Seen, due: real) returns (at: nat)
    requires from <= |history| && (0 < from < |history| ==> history[from].elapsed <= due)
    requires from == |history| ==> from == 0
    ensures from <= at <= |history|
    ensures var (longer, kept) := (history + [next], Due(history[from..] + [next], due));
      && kept == longer[at..] && |kept| == |longer| - at && kept[0] == longer[at]
      && (at > 0 ==> longer[at].elapsed <= due) && (at + 1 < |longer| ==> longer[at + 1].elapsed > due)
  {
    hide Due;
    var all, longer := history[from..] + [next], history + [next];
    var m := DueIs(all, due);
    at := from + m;
    assert all == longer[from..];
    assert all[m..] == longer[at..];
  }

  lemma {:induction false} InTimeMore(history: seq<Seen>, now: real, next: Seen)
    requires InTime(history, now) && next.elapsed > now
    ensures InTime(history + [next], next.elapsed)
  {
  }

  lemma {:induction false} OnlyOneIsLast(history: seq<Seen>, now: real, due: real, k: nat, m: nat)
    requires InTime(history, now) && k < |history| && LastDue(history, k, due) && m < |history|
    requires m + 1 < |history| ==> history[m + 1].elapsed > due
    requires m > 0 ==> history[m].elapsed <= due
    ensures k == m && history[m].elapsed <= due
  {
  }

  /** The PI behind the predictor sees the reading with the movement still on its way added. */
  lemma {:induction false} SmithActs(l: SmithLaw, exp: real -> real, elapsed: real, reading: real, setpoint: real,
      applied: Option<real>)
    requires Accepted(Smith(l))
    ensures var (m, out) := (Predicted(l, exp, elapsed, setpoint, applied), Step(Smith(l), exp, elapsed, reading, setpoint, applied));
      && out.law.Smith? && out.law.smith.lastOutput == out.correction
      && out.law.smith.predicted == m.predicted && out.law.smith.delayed == m.delayed && out.law.smith.pipe == m.pipe
      && (elapsed <= l.pi.i.lastElapsed ==> m == l)
      && var seen := reading + (m.predicted - m.delayed);
         && out.correction - out.law.smith.pi.i.integral * l.pi.i.ki == l.pi.kp * (l.pi.b * setpoint - seen)
         && Accumulates(l.pi.i, out.law.smith.pi.i, setpoint - seen, elapsed, applied)
  {
    hide PiStep, Due, Lagged, Driven;
    var m := Predicted(l, exp, elapsed, setpoint, applied);
    PiActs(l.pi, elapsed, reading + (m.predicted - m.delayed), setpoint, applied);
  }

  /** At rest on the demand in force: nothing is on its way, so the PI sees the plain reading. */
  lemma {:induction false} SmithRests(l: SmithLaw, reading: real, setpoint: real, correction: real)
    requires Accepted(Smith(l))
    ensures var out := Resume(Smith(l), reading, setpoint, correction);
      && out.law.Smith? && Remembers(out.law.smith, [], out.law.smith.pi.i.lastElapsed) && out.law.smith.lastOutput == correction
      && out.law.smith.predicted == out.law.smith.delayed == l.plant.gain * (l.plant.feedforward * setpoint + correction)
  {
  }

  // Gain scheduling.

  predicate Ascending(rows: seq<Row>) {
    forall j, k :: 0 <= j < k < |rows| ==> rows[j].setpoint < rows[k].setpoint
  }

  /** The three gains are as far from the row below as the setpoint is. */
  predicate OnLine(low: Row, high: Row, setpoint: real, gains: Row) {
    && (gains.kp - low.kp) * (high.setpoint - low.setpoint) == (high.kp - low.kp) * (setpoint - low.setpoint)
    && (gains.ki - low.ki) * (high.setpoint - low.setpoint) == (high.ki - low.ki) * (setpoint - low.setpoint)
    && (gains.kd - low.kd) * (high.setpoint - low.setpoint) == (high.kd - low.kd) * (setpoint - low.setpoint)
  }

  predicate SameGains(a: Row, b: Row) {
    a.kp == b.kp && a.ki == b.ki && a.kd == b.kd
  }

  /** The gains in force are on the line between the two rows the setpoint falls between, at each row its
      own, and flat beyond the ends. */
  lemma {:induction false} GainsInterpolate(rows: seq<Row>, setpoint: real, k: nat)
    requires Ascending(rows) && k < |rows|
    ensures rows[k].setpoint == setpoint ==> SameGains(Gains(rows, setpoint), rows[k])
    ensures k > 0 && rows[k - 1].setpoint < setpoint < rows[k].setpoint ==>
      OnLine(rows[k - 1], rows[k], setpoint, Gains(rows, setpoint))
    ensures setpoint <= rows[0].setpoint ==> SameGains(Gains(rows, setpoint), rows[0])
    ensures setpoint >= rows[|rows| - 1].setpoint ==> SameGains(Gains(rows, setpoint), rows[|rows| - 1])
  {
    hide OnLine, SameGains;
    RowAtSplits(rows, setpoint);
    var j := RowAt(rows, setpoint);
    SameRow(rows[0]);
    SameRow(rows[|rows| - 1]);
    if rows[0].setpoint < setpoint < rows[|rows| - 1].setpoint {
      assert 0 < j < |rows|;
      GainsBetween(rows, setpoint, j);
      if rows[k].setpoint == setpoint {
        assert j == k;
        OnLineAtEnd(rows[k - 1], rows[k], setpoint, Gains(rows, setpoint));
      }
    } else if rows[k].setpoint == setpoint {
      assert k == 0 || k == |rows| - 1;
    }
  }

  lemma {:induction false} SameRow(row: Row)
    ensures SameGains(row, row)
  {
  }

  lemma {:induction false} GainsBetween(rows: seq<Row>, setpoint: real, j: nat)
    requires Ascending(rows) && j == RowAt(rows, setpoint) && 0 < j < |rows|
    requires rows[0].setpoint < setpoint < rows[|rows| - 1].setpoint
    ensures OnLine(rows[j - 1], rows[j], setpoint, Gains(rows, setpoint))
  {
    hide RowAt;
    var low, high := rows[j - 1], rows[j];
    var weight := (setpoint - low.setpoint) / (high.setpoint - low.setpoint);
    assert weight * (high.setpoint - low.setpoint) == setpoint - low.setpoint;
    OnTheLine(low.kp, high.kp, weight, high.setpoint - low.setpoint, setpoint - low.setpoint);
    OnTheLine(low.ki, high.ki, weight, high.setpoint - low.setpoint, setpoint - low.setpoint);
    OnTheLine(low.kd, high.kd, weight, high.setpoint - low.setpoint, setpoint - low.setpoint);
  }

  lemma {:induction false} OnTheLine(low: real, high: real, weight: real, span: real, along: real)
    requires weight * span == along
    ensures (low + (high - low) * weight - low) * span == (high - low) * along
  {
  }

  lemma {:induction false} OnLineAtEnd(low: Row, high: Row, setpoint: real, gains: Row)
    requires OnLine(low, high, setpoint, gains) && high.setpoint == setpoint && low.setpoint < high.setpoint
    ensures SameGains(gains, high)
  {
    var span := high.setpoint - low.setpoint;
    SameFactor(gains.kp - low.kp, high.kp - low.kp, span);
    SameFactor(gains.ki - low.ki, high.ki - low.ki, span);
    SameFactor(gains.kd - low.kd, high.kd - low.kd, span);
  }

  /** A scheduled law steps as a PID on the gains of its setpoint. */
  lemma {:induction false} ScheduledActs(l: ScheduledLaw, exp: real -> real, elapsed: real, reading: real, setpoint: real,
      applied: Option<real>)
    requires Accepted(Scheduled(l))
    ensures var (gains, out) := (Gains(l.rows, setpoint), Step(Scheduled(l), exp, elapsed, reading, setpoint, applied));
      && out.law.Scheduled?
      && var pid := out.law.scheduled.pid;
         && pid.kp == gains.kp && pid.i.ki == gains.ki && pid.d.kd == gains.kd && pid.i.ttki == l.tt * gains.ki
         && pid.b == l.pid.b && pid.d.n == l.pid.d.n && out.law.scheduled.rows == l.rows && out.law.scheduled.tt == l.tt
         && Accumulates(Rescaled(l.pid.i, gains.ki, l.tt), pid.i, setpoint - reading, elapsed, applied)
         && (!Derives(l.pid, elapsed) ==>
               out.correction - pid.i.integral * gains.ki == gains.kp * (l.pid.b * setpoint - reading))
  {
    hide PidStep, Gains;
    var s := Schedule(l, setpoint);
    ScheduleKeeps(l, setpoint);
    PidActs(s.pid, elapsed, reading, setpoint, applied);
  }

  // The rest.

  lemma {:induction false} OthersAct(law: Law, exp: real -> real, elapsed: real, reading: real, setpoint: real,
      applied: Option<real>)
    requires Accepted(law)
    ensures var out := Step(law, exp, elapsed, reading, setpoint, applied);
      && (law.OpenLoop? ==> out.correction == 0.0)
      && (law.P? ==> out.correction == law.gain * setpoint - law.gain * reading)
      && (law.OnOff? ==>
            && out.law.OnOff?
            && (setpoint - reading > law.relay.hysteresis ==> out.correction == law.relay.high && out.law.relay.on)
            && (reading - setpoint > law.relay.hysteresis ==> out.correction == law.relay.low && !out.law.relay.on)
            && (reading - law.relay.hysteresis <= setpoint <= reading + law.relay.hysteresis ==>
                  && out.law == law && out.correction == if law.relay.on then law.relay.high else law.relay.low))
  {
  }

  /** Sliding mode puts out its limit, towards the surface, outside the boundary layer, and in proportion
      inside. */
  lemma {:induction false} SlidingActs(l: SlidingLaw, elapsed: real, reading: real, setpoint: real)
    requires Accepted(Sliding(l))
    ensures var out := SlidingStep(l, elapsed, reading, setpoint);
      var surface := setpoint - reading + l.lam * out.law.integral;
      && (surface >= l.boundary ==> out.correction == l.k)
      && (surface <= -l.boundary ==> out.correction == -l.k)
      && (-l.boundary < surface < l.boundary ==> out.correction * l.boundary == l.k * surface)
  {
    hide Saturated, Surface;
    var out := SlidingStep(l, elapsed, reading, setpoint);
    SurfaceIs(l.lam, setpoint - reading, out.law.integral);
    SaturatedIs(l.k, l.boundary, Surface(l.lam, setpoint - reading, out.law.integral));
  }

  lemma {:induction false} SurfaceIs(lam: real, error: real, integral: real)
    ensures Surface(lam, error, integral) == error + lam * integral
  {
  }

  /** It integrates the error inside the layer, or where that brings the surface back; and not when time
      runs back. */
  lemma {:induction false} SlidingIntegrates(l: SlidingLaw, elapsed: real, reading: real, setpoint: real)
    requires Accepted(Sliding(l))
    ensures var out := SlidingStep(l, elapsed, reading, setpoint);
      var (error, dt) := (setpoint - reading, elapsed - l.lastElapsed);
      var surface := error + l.lam * l.integral;
      && (dt >= 0.0 && (-l.boundary < surface < l.boundary || surface < 0.0 < error || error < 0.0 < surface) ==>
            out.law.integral == l.integral + error * dt)
      && (dt < 0.0 || (surface >= l.boundary && error >= 0.0) || (surface <= -l.boundary && error <= 0.0) ==>
            out.law.integral == l.integral)
      && out.law.lastElapsed == (if dt >= 0.0 then elapsed else l.lastElapsed)
      && out.law.k == l.k && out.law.lam == l.lam && out.law.boundary == l.boundary
  {
    hide Saturated, Surface;
    SurfaceIs(l.lam, setpoint - reading, l.integral);
    SignOfProduct(Surface(l.lam, setpoint - reading, l.integral), setpoint - reading);
  }

  lemma {:induction false} SignOfProduct(a: real, b: real)
    ensures a * b < 0.0 <==> (a < 0.0 < b) || (b < 0.0 < a)
  {
    if a > 0.0 { SignOf(a, b); } else if a < 0.0 { SignOf(-a, b); }
  }

  lemma {:induction false} SaturatedIs(k: real, boundary: real, surface: real)
    requires k > 0.0 && boundary > 0.0
    ensures var out := Saturated(k, boundary, surface);
      && (surface >= boundary ==> out == k) && (surface <= -boundary ==> out == -k)
      && (-boundary < surface < boundary ==> out * boundary == k * surface)
  {
    var q := surface / boundary;
    assert q * boundary == surface;
    if q < 1.0 { Grows(1.0, q, boundary); } else if q > 1.0 { Grows(q, 1.0, boundary); }
    if q < -1.0 { Grows(-1.0, q, boundary); } else if q > -1.0 { Grows(q, -1.0, boundary); }
    assert k * q * boundary == k * surface;
  }

  /** Rescheduling keeps the integral's contribution exactly when `ki` stays, both gains are non-zero,
      or there is nothing yet to contribute. */
  lemma {:induction false} ScheduleIsBumpless(i: Integral, ki: real, tt: real)
    ensures Contribution(Rescaled(i, ki, tt)) == Contribution(i)
       <==> ki == i.ki || (ki != 0.0 && i.ki != 0.0) || i.integral == 0.0
  {
  }

  lemma {:induction false} SomeProduct(a: real, b: real)
    requires a != 0.0 && b != 0.0
    ensures a * b != 0.0
  {
  }

  // Anti-windup.

  /** One step of a law that integrates: its gain then, the law's time, the error it integrates, what
      was last delivered, and the rest of its output. */
  datatype Tick = Tick(ki: real, elapsed: real, error: real, applied: real, other: real)

  /** `step_integral`, after any rescheduling, and `update_output`. */
  function Integrated(i: Integral, tt: real, t: Tick): Integral {
    var next := StepIntegral(Rescaled(i, t.ki, tt), t.error, t.elapsed, Some(t.applied)).i;
    next.(lastRaw := Some(t.other + Contribution(next)))
  }

  datatype Limits = Limits(tt: real, ki: real, error: real, other: real, applied: real)

  function Bound(l: Limits): real {
    l.applied + l.other + Pull(l.ki, l.tt, l.error)
  }

  /** Back-calculation on, the step no longer than `tt`, everything within its limits. */
  predicate Fair(l: Limits, i: Integral, t: Tick) {
    && t.ki != 0.0 && Abs(t.ki) <= l.ki && t.elapsed - i.lastElapsed <= l.tt
    && Abs(t.error) <= l.error && Abs(t.other) <= l.other && Abs(t.applied) <= l.applied
  }

  /** A law reset has no `last_raw` and nothing integrated; any other was last seen at its output. */
  predicate Running(l: Limits, i: Integral, most: real) {
    && i.ki != 0.0 && Abs(Contribution(i)) <= most
    && (match i.lastRaw
        case None => i.integral == 0.0
        case Some(raw) => Abs(raw - Contribution(i)) <= l.other)
  }

  /** In contributions: the new one is a weighted mean of the old and of what the limits bound. */
  lemma {:induction false} IsMean(ki: real, tt: real, ttki: real, integral: real, error: real, dt: real, short: real)
    returns (w: real, x: real)
    requires ki != 0.0 && tt > 0.0 && 0.0 <= dt <= tt && ttki == tt * ki && ttki != 0.0
    ensures 0.0 <= w <= 1.0 && x == short + Pull(ki, tt, error)
    ensures Share(integral + Area(error, dt) + Back(short, dt, ttki), ki) == Share(integral, ki) + w * x
  {
    w, x := dt / tt, short + Pull(ki, tt, error);
    assert w * tt == dt;
    Share01(w, tt, dt);
    var back := Back(short, dt, ttki);
    BackShare(ki, tt, ttki, dt, short, w);
    AreaShare(ki, tt, error, dt, w);
    ShareAdds(integral, Area(error, dt), back, ki);
    assert w * x == w * short + w * Pull(ki, tt, error);
  }

  lemma {:induction false} ShareAdds(a: real, b: real, c: real, ki: real)
    ensures Share(a + b + c, ki) == Share(a, ki) + Share(b, ki) + Share(c, ki)
  {
  }

  lemma {:induction false} BackShare(ki: real, tt: real, ttki: real, dt: real, short: real, w: real)
    requires ki != 0.0 && tt > 0.0 && ttki == tt * ki && ttki != 0.0 && w * tt == dt
    ensures Share(Back(short, dt, ttki), ki) == w * short
  {
    var q := short * dt / ttki;
    assert q * ttki == short * dt;
    assert (q * ki) * tt == q * ttki;
    assert (w * short) * tt == short * dt by { assert (w * short) * tt == short * (w * tt); }
    SameFactor(q * ki, w * short, tt);
  }

  lemma {:induction false} AreaShare(ki: real, tt: real, error: real, dt: real, w: real)
    requires w * tt == dt
    ensures Share(Area(error, dt), ki) == w * Pull(ki, tt, error)
  {
    var p := ki * tt * error;
    assert w * p == w * tt * (ki * error);
    assert error * dt * ki == dt * (ki * error);
  }

  lemma {:induction false} Share01(w: real, tt: real, dt: real)
    requires tt > 0.0 && 0.0 <= dt <= tt && w * tt == dt
    ensures 0.0 <= w <= 1.0
  {
  }

  lemma {:induction false} SameFactor(a: real, b: real, c: real)
    requires c != 0.0 && a * c == b * c
    ensures a == b
  {
  }

  lemma {:induction false} MeanIsBounded(c: real, x: real, w: real, most: real)
    requires 0.0 <= w <= 1.0 && Abs(c) <= most && Abs(c + x) <= most
    ensures Abs(c + w * x) <= most
  {
    NotNegative(w, most - (c + x));
    NotNegative(w, most + (c + x));
    NotNegative(1.0 - w, most - c);
    NotNegative(1.0 - w, most + c);
    assert most - (c + w * x) == w * (most - (c + x)) + (1.0 - w) * (most - c);
    assert most + (c + w * x) == w * (most + (c + x)) + (1.0 - w) * (most + c);
  }

  lemma {:induction false} Reach(ki: real, tt: real, error: real, most: real, errors: real)
    requires tt > 0.0 && Abs(ki) <= most && Abs(error) <= errors
    ensures Abs(Pull(ki, tt, error)) <= Pull(most, tt, errors)
  {
    var a, b := Abs(ki), Abs(error);
    NotNegative(most - a, tt * b);
    NotNegative(most * tt, errors - b);
    assert most * tt * errors - a * tt * b == (most * tt) * (errors - b) + (most - a) * (tt * b);
    assert Abs(ki * tt * error) == a * tt * b by { AbsProduct(ki, tt, error); }
  }

  lemma {:induction false} AbsProduct(ki: real, tt: real, error: real)
    requires tt > 0.0
    ensures Abs(ki * tt * error) == Abs(ki) * tt * Abs(error)
  {
  }

  function Pull(ki: real, tt: real, error: real): real {
    ki * tt * error
  }

  /** How far what was delivered fell short of what was asked for. */
  function Behind(s: Integral, applied: real): real {
    if s.lastRaw.Some? then applied - s.lastRaw.value else 0.0
  }

  lemma {:induction false} OneStep(s: Integral, tt: real, error: real, elapsed: real,
      applied: real) returns (w: real, x: real)
    requires s.ki != 0.0 && tt > 0.0 && s.ttki == tt * s.ki && 0.0 <= elapsed - s.lastElapsed <= tt
    ensures 0.0 <= w <= 1.0
    ensures x == Behind(s, applied) + Pull(s.ki, tt, error)
    ensures Contribution(StepIntegral(s, error, elapsed, Some(applied)).i) == Contribution(s) + w * x
  {
    hide Share, Area, Back, Pull;
    SomeProduct(tt, s.ki);
    var dt, short := elapsed - s.lastElapsed, Behind(s, applied);
    w, x := IsMean(s.ki, tt, s.ttki, s.integral, error, dt, short);
    NothingBack(dt, s.ttki);
  }

  lemma {:induction false} NothingBack(dt: real, ttki: real)
    requires ttki != 0.0
    ensures Back(0.0, dt, ttki) == 0.0
  {
  }

  lemma {:induction false} StepKeepsGains(i: Integral, error: real, elapsed: real, applied: Option<real>)
    ensures var next := StepIntegral(i, error, elapsed, applied).i;
      && next.ki == i.ki && next.ttki == i.ttki && next.lastRaw == i.lastRaw
      && (elapsed < i.lastElapsed ==> next == i)
  {
  }

  lemma {:induction false} ContributionIgnores(i: Integral, raw: Option<real>)
    ensures Contribution(i.(lastRaw := raw)) == Contribution(i)
  {
  }

  lemma {:induction false} NextBounded(l: Limits, s: Integral, t: Tick, most: real)
    requires l.tt > 0.0 && s.ki == t.ki && s.ttki == l.tt * s.ki && Abs(Contribution(s)) <= most && Bound(l) <= most
    requires Fair(l, s, t)
    requires match s.lastRaw case None => Contribution(s) == 0.0 case Some(raw) => Abs(raw - Contribution(s)) <= l.other
    ensures Abs(Contribution(StepIntegral(s, t.error, t.elapsed, Some(t.applied)).i)) <= most
  {
    hide StepIntegral, Contribution, Bound, Pull;
    StepKeepsGains(s, t.error, t.elapsed, Some(t.applied));
    if t.elapsed >= s.lastElapsed {
      var w, x := OneStep(s, l.tt, t.error, t.elapsed, t.applied);
      MeetsBound(l, t, Contribution(s), Behind(s, t.applied), most);
      MeanIsBounded(Contribution(s), x, w, most);
    }
  }

  lemma {:induction false} TickStaysBounded(l: Limits, i: Integral, t: Tick, most: real)
    requires l.tt > 0.0 && Running(l, i, most) && Fair(l, i, t) && Bound(l) <= most
    ensures Running(l, Integrated(i, l.tt, t), most)
  {
    hide StepIntegral, Contribution, Rescaled, Bound;
    var s := Rescaled(i, t.ki, l.tt);
    ScheduleIsBumpless(i, t.ki, l.tt);
    RescaledKeeps(i, t.ki, l.tt);
    StepKeepsGains(s, t.error, t.elapsed, Some(t.applied));
    var next := StepIntegral(s, t.error, t.elapsed, Some(t.applied)).i;
    ContributionIgnores(next, Some(t.other + Contribution(next)));
    NextBounded(l, s, t, most);
  }

  /** Where the mean is pulled to. */
  lemma {:induction false} MeetsBound(l: Limits, t: Tick, c: real, back: real, most: real)
    requires l.tt > 0.0 && Abs(t.ki) <= l.ki && Abs(t.error) <= l.error && Abs(t.applied) <= l.applied && 0.0 <= l.other
    requires Bound(l) <= most && ((c == 0.0 && back == 0.0) || Abs(t.applied - back - c) <= l.other)
    ensures Abs(c + (back + Pull(t.ki, l.tt, t.error))) <= most
  {
    hide Pull;
    Reach(t.ki, l.tt, t.error, l.ki, l.error);
    var far := Pull(t.ki, l.tt, t.error);
    var reach := Pull(l.ki, l.tt, l.error);
    assert Abs(far) <= reach && l.applied + l.other + reach <= most;
  }

  lemma {:induction false} RescaledKeeps(i: Integral, ki: real, tt: real)
    ensures var s := Rescaled(i, ki, tt);
      && s.ki == ki && s.ttki == tt * ki && s.lastRaw == i.lastRaw && s.lastElapsed == i.lastElapsed
      && (i.integral == 0.0 ==> Contribution(i) == 0.0 && s.integral == 0.0)
  {
  }

  function IntegratedAll(i: Integral, tt: real, ticks: seq<Tick>): Integral
    decreases |ticks|
  {
    if ticks == [] then i else IntegratedAll(Integrated(i, tt, ticks[0]), tt, ticks[1..])
  }

  predicate AllFair(l: Limits, i: Integral, ticks: seq<Tick>)
    decreases |ticks|
  {
    ticks != [] ==> Fair(l, i, ticks[0]) && AllFair(l, Integrated(i, l.tt, ticks[0]), ticks[1..])
  }

  function Larger(a: real, b: real): real {
    if a > b then a else b
  }

  /** Over any run of steps no longer than `tt`, the gains rescheduled as they may be, the integral's
      contribution never exceeds the larger of where it started and D + M + |ki| tt E. */
  lemma {:induction false} NeverWindsUp(l: Limits, i: Integral, ticks: seq<Tick>)
    requires l.tt > 0.0 && AllFair(l, i, ticks) && Running(l, i, Larger(Abs(Contribution(i)), Bound(l)))
    ensures Abs(Contribution(IntegratedAll(i, l.tt, ticks))) <= Larger(Abs(Contribution(i)), Bound(l))
  {
    StaysBounded(l, i, ticks, Larger(Abs(Contribution(i)), Bound(l)));
  }

  lemma {:induction false} StaysBounded(l: Limits, i: Integral, ticks: seq<Tick>, most: real)
    requires l.tt > 0.0 && AllFair(l, i, ticks) && Running(l, i, most) && Bound(l) <= most
    ensures Running(l, IntegratedAll(i, l.tt, ticks), most)
    decreases |ticks|
  {
    hide Integrated, Running, Fair, Bound;
    if ticks != [] {
      TickStaysBounded(l, i, ticks[0], most);
      StaysBounded(l, Integrated(i, l.tt, ticks[0]), ticks[1..], most);
    }
  }

  // Every law that integrates takes such steps.

  function IntegralOf(law: Law): Integral
    requires Integrates(law)
  {
    match law
    case PI(l) => l.i
    case PID(l) => l.i
    case Smith(l) => l.pi.i
    case Scheduled(l) => l.pid.i
  }

  /** The error a law integrates: a Smith predictor's is of the reading with the dead time taken out. */
  function ErrorSeen(law: Law, exp: real -> real, elapsed: real, reading: real, setpoint: real,
      applied: Option<real>): real
    requires Accepted(law)
  {
    if law.Smith? then
      var m := Predicted(law.smith, exp, elapsed, setpoint, applied);
      setpoint - (reading + (m.predicted - m.delayed))
    else setpoint - reading
  }

  function AntiWindupTime(law: Law): real
    requires Integrates(law)
  {
    if law.Scheduled? then law.scheduled.tt else if IntegralOf(law).ki == 0.0 then 0.0 else IntegralOf(law).ttki / IntegralOf(law).ki
  }

  /** What a step puts out besides the integral: the proportional and the derivative terms. */
  function OtherTerms(law: Law, exp: real -> real, elapsed: real, reading: real, setpoint: real,
      applied: Option<real>): real
    requires Accepted(law) && Integrates(law)
  {
    var out := Step(law, exp, elapsed, reading, setpoint, applied);
    out.correction - if Integrates(out.law) then Contribution(IntegralOf(out.law)) else 0.0
  }

  /** So a step of any of them is one of the ticks that never wind up. */
  lemma {:induction false} LawTicks(law: Law, exp: real -> real, elapsed: real, reading: real, setpoint: real,
      applied: real)
    requires Accepted(law) && Integrates(law) && IntegralOf(law).ki != 0.0
    ensures var out := Step(law, exp, elapsed, reading, setpoint, Some(applied));
      var tick := Tick(KiAt(law, setpoint), elapsed, ErrorSeen(law, exp, elapsed, reading, setpoint, Some(applied)), applied,
                       OtherTerms(law, exp, elapsed, reading, setpoint, Some(applied)));
      && Integrates(out.law)
      && IntegralOf(out.law) == Integrated(IntegralOf(law), AntiWindupTime(law), tick)
      && (!law.Scheduled? ==> KiAt(law, setpoint) == IntegralOf(law).ki && AntiWindupTime(law) == AntiWindupTime(out.law))
  {
  }

  function TickOf(law: Law, exp: real -> real, x: Input): Tick
    requires Accepted(law) && Integrates(law)
  {
    Tick(KiAt(law, x.setpoint), x.elapsed, ErrorSeen(law, exp, x.elapsed, x.reading, x.setpoint, Some(x.applied)), x.applied,
         OtherTerms(law, exp, x.elapsed, x.reading, x.setpoint, Some(x.applied)))
  }

  lemma {:induction false} StepKeepsAccepted(law: Law, exp: real -> real, x: Input)
    requires Accepted(law)
    ensures Accepted(Step(law, exp, x.elapsed, x.reading, x.setpoint, Some(x.applied)).law)
  {
  }

  function After(law: Law, exp: real -> real, inputs: seq<Input>): Law
    requires Accepted(law)
    decreases |inputs|
  {
    if inputs == [] then law
    else
      var x := inputs[0];
      StepKeepsAccepted(law, exp, x);
      After(Step(law, exp, x.elapsed, x.reading, x.setpoint, Some(x.applied)).law, exp, inputs[1..])
  }

  /** Every step of the run within the limits, the law as it then is. */
  predicate FairRun(l: Limits, law: Law, exp: real -> real, inputs: seq<Input>)
    requires Accepted(law)
    decreases |inputs|
  {
    Integrates(law) && AntiWindupTime(law) == l.tt
    && (inputs != [] ==>
          var x := inputs[0];
          StepKeepsAccepted(law, exp, x);
          && Fair(l, IntegralOf(law), TickOf(law, exp, x))
          && FairRun(l, Step(law, exp, x.elapsed, x.reading, x.setpoint, Some(x.applied)).law, exp, inputs[1..]))
  }

  /** PI, PID, IMC, Smith and scheduled alike: over any run within the limits the integral's share of
      the output stays within the bound, however long the target was held off what was asked of it. */
  lemma {:induction false} NoLawWindsUp(l: Limits, law: Law, exp: real -> real, inputs: seq<Input>, most: real)
    requires l.tt > 0.0 && Accepted(law) && FairRun(l, law, exp, inputs)
    requires Running(l, IntegralOf(law), most) && Bound(l) <= most
    ensures Integrates(After(law, exp, inputs)) && Abs(Contribution(IntegralOf(After(law, exp, inputs)))) <= most
    decreases |inputs|
  {
    hide Step, KiAt, ErrorSeen, OtherTerms, Fair, Bound, Integrated, StepIntegral, Contribution;
    if inputs != [] {
      var x := inputs[0];
      LawTicks(law, exp, x.elapsed, x.reading, x.setpoint, x.applied);
      TickStaysBounded(l, IntegralOf(law), TickOf(law, exp, x), most);
      StepKeepsAccepted(law, exp, x);
      NoLawWindsUp(l, Step(law, exp, x.elapsed, x.reading, x.setpoint, Some(x.applied)).law, exp, inputs[1..], most);
    }
  }

  /** Where such runs start: at a reset, or at a handover whose proportional term is within its limit. */
  lemma {:induction false} ResetAndResumeRun(l: Limits, i: Integral, kpTerm: real, correction: real)
    requires i.ki != 0.0
    ensures Running(l, Cleared(i), 0.0)
    ensures Abs(kpTerm) <= l.other ==> Running(l, ResumeIntegral(i, kpTerm, correction).i, Abs(correction - kpTerm))
  {
  }

  // The code, updating its fields in place, against the functions above.

  class IComponent {
    var ki: real
    var ttMulKi: real
    var integral: real
    var lastRaw: Option<real>
    var lastElapsed: real

    constructor (ki: real, tt: real)
      ensures View() == Integral(ki, tt * ki, 0.0, None, 0.0)
    {
      this.ki, ttMulKi := ki, tt * ki;
      integral, lastRaw, lastElapsed := 0.0, None, 0.0;
    }

    ghost function View(): Integral
      reads this
    {
      Integral(ki, ttMulKi, integral, lastRaw, lastElapsed)
    }

    method Clear()
      modifies this
      ensures View() == Cleared(old(View()))
    {
      integral, lastRaw, lastElapsed := 0.0, None, 0.0;
    }

    method Resume(kpTerm: real, correction: real) returns (seeded: real)
      modifies this
      ensures Resumed(View(), seeded) == ResumeIntegral(old(View()), kpTerm, correction)
    {
      integral, lastRaw, lastElapsed := 0.0, None, 0.0;
      if ki == 0.0 {
        lastRaw := Some(kpTerm);
        return kpTerm;
      }
      lastRaw := Some(correction);
      integral := (correction - kpTerm) / ki;
      return correction;
    }

    method Step(error: real, elapsed: real, applied: Option<real>) returns (dt: real)
      modifies this
      ensures Advanced(View(), dt) == StepIntegral(old(View()), error, elapsed, applied)
    {
      dt := elapsed - lastElapsed;
      if dt < 0.0 { return 0.0; }
      hide Area, Back;
      lastElapsed := elapsed;
      var on := integral + Area(error, dt);
      var back := 0.0;
      if ttMulKi != 0.0 && applied.Some? && lastRaw.Some? {
        back := Back(applied.value - lastRaw.value, dt, ttMulKi);
      }
      integral := on + back;
    }

    method SetKi(ki: real, tt: real)
      modifies this
      ensures View() == Rescaled(old(View()), ki, tt)
    {
      if ki != this.ki && this.ki != 0.0 && ki != 0.0 {
        integral := integral * (this.ki / ki);
      }
      this.ki := ki;
      ttMulKi := tt * ki;
    }
  }

  class PidControl {
    var kp: real
    var kd: real
    const b: real
    const n: Option<real>
    const i: IComponent
    var lastReading: Option<real>
    var filteredRate: real

    constructor (kp: real, ki: real, kd: real, tt: real, b: real, n: Option<real>)
      requires n.Some? ==> n.value > 0.0
      ensures View() == PidLaw(kp, b, Integral(ki, tt * ki, 0.0, None, 0.0), Derivative(kd, n, None, 0.0))
      ensures fresh(i)
    {
      this.kp, this.kd, this.b, this.n := kp, kd, b, n;
      lastReading, filteredRate := None, 0.0;
      i := new IComponent(ki, tt);
    }

    ghost function View(): PidLaw
      reads this, i
    {
      PidLaw(kp, b, i.View(), Derivative(kd, n, lastReading, filteredRate))
    }

    method Resume(reading: real, setpoint: real, correction: real) returns (seeded: real)
      modifies this, i
      ensures PidOut(View(), seeded) == PidResume(old(View()), reading, setpoint, correction)
    {
      lastReading := Some(reading);
      seeded := i.Resume(Proportional(kp, b, reading, setpoint), correction);
    }

    method Step(elapsed: real, reading: real, setpoint: real, applied: Option<real>) returns (output: real)
      requires n.Some? ==> n.value > 0.0
      modifies this, i
      ensures PidOut(View(), output) == PidStep(old(View()), elapsed, reading, setpoint, applied)
    {
      hide Proportional, StepIntegral, Share, Slope, Filtered, Scale;
      var dt := i.Step(setpoint - reading, elapsed, applied);
      output := Proportional(kp, b, reading, setpoint) + Share(i.integral, i.ki);
      var term := 0.0;
      if dt > 0.0 && lastReading.Some? {
        var rate := Slope(lastReading.value, reading, dt);
        if n.Some? {
          filteredRate := Filtered(filteredRate, rate, dt, n.value);
          rate := filteredRate;
        }
        term := Scale(kd, rate);
      }
      output := output + term;
      lastReading := Some(reading);
      i.lastRaw := Some(output);
    }
  }

  class SlidingMode {
    const k: real
    const lam: real
    const boundary: real
    var integral: real
    var lastElapsed: real

    constructor (k: real, lam: real, boundary: real)
      requires k > 0.0 && lam > 0.0 && boundary > 0.0
      ensures View() == SlidingLaw(k, lam, boundary, 0.0, 0.0)
    {
      this.k, this.lam, this.boundary, integral, lastElapsed := k, lam, boundary, 0.0, 0.0;
    }

    ghost function View(): SlidingLaw
      reads this
    {
      SlidingLaw(k, lam, boundary, integral, lastElapsed)
    }

    method Resume(reading: real, setpoint: real, correction: real) returns (wanted: real)
      requires k > 0.0 && lam > 0.0
      modifies this
      ensures SlidingOut(View(), wanted) == SlidingResume(old(View()), reading, setpoint, correction)
    {
      wanted := Clamp(correction, -k, k);
      integral := Seed(lam, Wanted(k, boundary, wanted), setpoint - reading);
      lastElapsed := 0.0;
    }

    method Step(elapsed: real, reading: real, setpoint: real) returns (output: real)
      requires boundary > 0.0
      modifies this
      ensures SlidingOut(View(), output) == SlidingStep(old(View()), elapsed, reading, setpoint)
    {
      hide Surface, Saturated;
      var error := setpoint - reading;
      var dt := elapsed - lastElapsed;
      if dt >= 0.0 {
        lastElapsed := elapsed;
        var surface := Surface(lam, error, integral);
        if Abs(surface) < boundary || surface * error < 0.0 {
          integral := integral + error * dt;
        }
      }
      return Saturated(k, boundary, Surface(lam, error, integral));
    }
  }

  /** The predictor in front of a PI. */
  class SmithModel {
    const plant: Plant
    var predicted: real
    var delayed: real
    var pipe: seq<Seen>

    constructor (plant: Plant)
      requires plant.tau > 0.0 && plant.dead >= 0.0
      ensures this.plant == plant && predicted == 0.0 && delayed == 0.0 && pipe == []
    {
      this.plant, predicted, delayed, pipe := plant, 0.0, 0.0, [];
    }

    method Predict(exp: real -> real, pi: PiLaw, lastOutput: real, elapsed: real, setpoint: real,
        applied: Option<real>)
      requires plant.tau > 0.0
      modifies this
      ensures SmithLaw(pi, plant, predicted, delayed, pipe, lastOutput)
           == Predicted(SmithLaw(pi, plant, old(predicted), old(delayed), old(pipe), lastOutput), exp, elapsed, setpoint, applied)
    {
      hide Lagged, Driven;
      var dt := elapsed - pi.i.lastElapsed;
      if dt <= 0.0 { return; }
      var driven := if applied.None? then lastOutput else applied.value;
      predicted := Lagged(exp, plant.tau, Driven(plant, setpoint, driven), predicted, dt);
      pipe := pipe + [Seen(elapsed, predicted)];
      var due := elapsed - plant.dead;
      ghost var whole, now := Due(pipe, due), predicted;
      while |pipe| > 1 && pipe[1].elapsed <= due
        invariant Due(pipe, due) == whole && pipe != [] && predicted == now && delayed == old(delayed)
        decreases |pipe|
      {
        pipe := pipe[1..];
      }
      assert pipe == whole;
      if pipe[0].elapsed <= due { delayed := pipe[0].predicted; }
    }
  }
}
