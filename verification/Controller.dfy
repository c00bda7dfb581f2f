/** One controller (`engine/src/flyball/model/controller.py`): a law and a feedforward between a
    reading and a demand, and the handovers between being held and regulating.

    `write` is what the rig does with a demand: the committed value, or `None` when it comes later. */
module Controller {
  import opened Options
  import Feedforward
  import Laws
  import Setpoint

  datatype Reading = Reading(time: int, value: real)

  datatype Reference = At(value: real) | Along(motion: Setpoint.Running)

  datatype Mode = Manual | Open | Regulating

  datatype Source = Process | TheSetpoint | TheDemand | Exactly(value: real)

  datatype Transfer = Keep | Carry | Track | Restart

  datatype State = State(
    started: int, law: Option<Laws.Law>, feedforward: Feedforward.Feedforward, minPeriod: Option<real>,
    correction: real, offset: int, reference: Option<Reference>, setpoint: Option<real>, demand: Option<real>,
    expected: Option<real>, reading: Option<Reading>, delivered: Option<real>, mode: Mode, base: Option<real>,
    lastStep: Option<int>, interval: Option<int>)

  const OUTAGE_STEPS := 3

  predicate Valid(c: State) {
    Feedforward.Valid(c.feedforward) && (c.law.Some? ==> Laws.Accepted(c.law.value))
  }

  function Seconds(ns: int): real {
    ns as real / 1_000_000_000.0
  }

  function SetpointOf(c: State, reference: Reference, time: int): real {
    match reference
    case At(value) => value
    case Along(motion) => Setpoint.Generate(motion, Seconds(time - c.started))
  }

  function RateOf(c: State, reference: Reference, time: int): real {
    match reference
    case At(_) => 0.0
    case Along(motion) => Setpoint.Rate(motion, Seconds(time - c.started))
  }

  function Base(c: State, reference: Reference, time: int): real
    requires Valid(c)
  {
    Feedforward.Evaluate(c.feedforward, SetpointOf(c, reference, time), RateOf(c, reference, time))
  }

  datatype Aim = Aim(value: real) | NoReading | NotStarted | NotInvertible

  /** Where to aim, in the source's unit. */
  function Resolve(c: State, at: Source, time: int): Aim
    requires Valid(c)
  {
    match at
    case Process => if c.reading.Some? then Aim(c.reading.value.value) else NoReading
    case TheSetpoint => if c.reference.Some? then Aim(SetpointOf(c, c.reference.value, time)) else NotStarted
    case TheDemand =>
      if c.reference.None? then NotStarted
      else
        var back := Feedforward.Invert(c.feedforward, Base(c, c.reference.value, time) + c.correction,
                                       RateOf(c, c.reference.value, time));
        if back.Aim? then Aim(back.setpoint) else NotInvertible
    case Exactly(value) => Aim(value)
  }

  function Apply(c: State, write: real -> Option<real>, setpoint: real, rate: real): State
    requires Valid(c)
  {
    var base := Feedforward.Evaluate(c.feedforward, setpoint, rate);
    var expected := write(base + c.correction);
    c.(setpoint := Some(setpoint), base := Some(base), demand := Some(base + c.correction),
       expected := expected, delivered := if expected.Some? then Some(expected.value - base) else None)
  }

  function ApplyAt(c: State, write: real -> Option<real>, reference: Reference, time: int): State
    requires Valid(c)
  {
    Apply(c, write, SetpointOf(c, reference, time), RateOf(c, reference, time))
  }

  function Held(c: State): Option<real> {
    if c.expected.Some? then c.expected else c.demand
  }

  function Aimed(c: State, value: real, generator: Option<Setpoint.Generator>, time: int): Reference
    requires generator.Some? ==> Setpoint.Accepted(generator.value)
  {
    if generator.Some? then Along(Setpoint.Start(generator.value, Seconds(time - c.started), value)) else At(value)
  }

  /** The correction a handover seeds, and the law as seeded. */
  function Seeded(c: State, reference: Reference, time: int, transfer: Transfer): State
    requires Valid(c)
  {
    var reset := c.(offset := time, lastStep := None,
                    law := if c.law.Some? then Some(Laws.Reset(c.law.value)) else None);
    if c.reading.None? || transfer == Restart then reset.(correction := 0.0)
    else
      var hold := if transfer == Carry || Held(c).None? then c.correction else Held(c).value - Base(c, reference, time);
      if reset.law.None? then reset
      else
        ResetKeepsAccepted(c.law.value);
        var out := Laws.Resume(reset.law.value, c.reading.value.value, SetpointOf(c, reference, time), hold);
        reset.(law := Some(out.law), correction := out.correction)
  }

  datatype Handover = Handover(controller: State, bump: real) | Refused(why: Aim)

  function Regulate(c: State, write: real -> Option<real>, at: Source, generator: Option<Setpoint.Generator>,
                    tuning: Option<Laws.Law>, time: int, transfer: Transfer): Handover
    requires Valid(c) && (tuning.Some? ==> Laws.Accepted(tuning.value))
    requires generator.Some? ==> Setpoint.Accepted(generator.value)
  {
    var aim := Resolve(c, at, time);
    if !aim.Aim? then Refused(aim)
    else
      var reference := Aimed(c, aim.value, generator, time);
      var tuned := c.(law := if tuning.Some? then tuning else c.law, reference := Some(reference));
      var seeded := if transfer == Keep then tuned else Seeded(tuned, reference, time, transfer);
      SeededIsValid(tuned, reference, time, transfer);
      var setpoint := if transfer == Keep then aim.value else SetpointOf(c, reference, time);
      var applied := Apply(seeded.(mode := Regulating), write, setpoint, RateOf(c, reference, time));
      Handover(applied, if Held(c).Some? then applied.demand.value - Held(c).value else 0.0)
  }

  lemma {:induction false} ResetKeepsAccepted(law: Laws.Law)
    requires Laws.Accepted(law)
    ensures Laws.Accepted(Laws.Reset(law))
  {
  }

  lemma {:induction false} SeededIsValid(c: State, reference: Reference, time: int, transfer: Transfer)
    requires Valid(c)
    ensures Valid(Seeded(c, reference, time, transfer))
    ensures var s := Seeded(c, reference, time, transfer);
      s == c.(offset := time, lastStep := None, law := s.law, correction := s.correction)
  {
    hide Laws.Resume, Laws.Reset, Laws.Accepted, Feedforward.Valid, Feedforward.Evaluate, SetpointOf, RateOf;
    if c.law.Some? {
      ResetKeepsAccepted(c.law.value);
      var held := if transfer == Carry || Held(c).None? then c.correction else Held(c).value - Base(c, reference, time);
      if c.reading.Some? {
        ResumeKeepsAccepted(Laws.Reset(c.law.value), c.reading.value.value, SetpointOf(c, reference, time), held);
      }
    }
  }

  lemma {:induction false} ResumeKeepsAccepted(law: Laws.Law, reading: real, setpoint: real, correction: real)
    requires Laws.Accepted(law)
    ensures Laws.Accepted(Laws.Resume(law, reading, setpoint, correction).law)
  {
  }

  // A tick.

  /** Keep a gap in the readings out of the law's time. */
  function SkipOutage(c: State, time: int): State {
    if c.lastStep.None? then c
    else
      var gap := time - c.lastStep.value;
      if c.interval.Some? && gap > OUTAGE_STEPS * c.interval.value then c.(offset := c.offset + (gap - c.interval.value))
      else if gap > 0 then c.(interval := Some(gap))
      else c
  }

  predicate TooSoon(c: State, time: int) {
    c.minPeriod.Some? && c.lastStep.Some? && (time - c.lastStep.value) as real < c.minPeriod.value * 1_000_000_000.0
  }

  datatype Ticked = Ticked(controller: State) | NoReference(controller: State) | NoLaw(controller: State)

  function Tick(c: State, write: real -> Option<real>, exp: real -> real, reading: Reading): Ticked
    requires Valid(c)
  {
    var seen := c.(reading := Some(reading));
    if TooSoon(c, reading.time) || c.mode == Manual then Ticked(seen)
    else if c.reference.None? then NoReference(seen)
    else if c.mode == Open then Ticked(ApplyAt(seen, write, c.reference.value, reading.time))
    else
      var skipped := SkipOutage(seen, reading.time).(lastStep := Some(reading.time));
      if c.law.None? then NoLaw(skipped)
      else
        var out := Laws.Step(c.law.value, exp, Seconds(reading.time - skipped.offset), reading.value,
                             SetpointOf(c, c.reference.value, reading.time), c.delivered);
        StepKeepsAccepted(c.law.value, exp, Seconds(reading.time - skipped.offset), reading.value,
                          SetpointOf(c, c.reference.value, reading.time), c.delivered);
        Ticked(ApplyAt(skipped.(law := Some(out.law), correction := out.correction), write, c.reference.value, reading.time))
  }

  lemma {:induction false} StepKeepsAccepted(law: Laws.Law, exp: real -> real, elapsed: real, reading: real,
      setpoint: real, applied: Option<real>)
    requires Laws.Accepted(law)
    ensures Laws.Accepted(Laws.Step(law, exp, elapsed, reading, setpoint, applied).law)
  {
  }

  /** The deferred commit reports what the target was set to. */
  function Delivered(c: State, value: Option<real>): State {
    c.(expected := value, delivered := if value.Some? && c.base.Some? then Some(value.value - c.base.value) else None)
  }

  // Handing over without a bump.

  lemma {:induction false} ResetHoldsAlike(law: Laws.Law, reading: real, setpoint: real, correction: real)
    requires Laws.Accepted(law)
    ensures Laws.Accepted(Laws.Reset(law))
    ensures Laws.CanHold(Laws.Reset(law), reading, setpoint, correction) == Laws.CanHold(law, reading, setpoint, correction)
    ensures Laws.Reproduces(Laws.Reset(law), reading, setpoint, correction) == Laws.Reproduces(law, reading, setpoint, correction)
  {
  }

  /** The law a handover leaves in force, the setpoint it is seeded at, and what it is to hold. */
  function LawAfter(c: State, tuning: Option<Laws.Law>): Option<Laws.Law> {
    if tuning.Some? then tuning else c.law
  }

  /** What a handover with TRACK leaves: the law seeded at that instant, and its demand made. */
  lemma {:induction false} Tracked(c: State, write: real -> Option<real>, at: Source,
      generator: Option<Setpoint.Generator>, tuning: Option<Laws.Law>, time: int)
    requires Valid(c) && (tuning.Some? ==> Laws.Accepted(tuning.value))
    requires generator.Some? ==> Setpoint.Accepted(generator.value)
    requires c.reading.Some? && Held(c).Some? && LawAfter(c, tuning).Some? && Resolve(c, at, time).Aim?
    ensures var r := Regulate(c, write, at, generator, tuning, time, Track);
      var reference := Aimed(c, Resolve(c, at, time).value, generator, time);
      var hold := Held(c).value - Base(c, reference, time);
      && r.Handover? && Laws.Accepted(Laws.Reset(LawAfter(c, tuning).value))
      && var h := r.controller;
         var out := Laws.Resume(Laws.Reset(LawAfter(c, tuning).value), c.reading.value.value, SetpointOf(c, reference, time), hold);
         && Valid(h) && h.law == Some(out.law) && h.correction == out.correction
         && h.mode == Regulating && h.reference == Some(reference) && h.offset == time && h.lastStep == None
         && h.started == c.started && h.feedforward == c.feedforward && h.minPeriod == c.minPeriod
         && h.demand == Some(Base(c, reference, time) + out.correction) && r.bump == h.demand.value - Held(c).value
         && h.expected == write(h.demand.value)
         && h.delivered == (if h.expected.Some? then Some(h.expected.value - Base(c, reference, time)) else None)
  {
    hide Laws.Resume, Laws.Reset, Laws.Accepted, Feedforward.Evaluate, Feedforward.Invert, Setpoint.Start, Feedforward.Valid;
    ResetKeepsAccepted(LawAfter(c, tuning).value);
    var reference := Aimed(c, Resolve(c, at, time).value, generator, time);
    SeededIsValid(c.(law := LawAfter(c, tuning), reference := Some(reference)), reference, time, Track);
  }

  /** The first tick at that instant: the law steps over no time. */
  lemma {:induction false} TicksAtOnce(h: State, write: real -> Option<real>, exp: real -> real, reading: Reading)
    requires Valid(h) && h.mode == Regulating && h.reference.Some? && h.law.Some?
    requires h.lastStep == None && h.offset == reading.time
    ensures var setpoint := SetpointOf(h, h.reference.value, reading.time);
      var out := Laws.Step(h.law.value, exp, 0.0, reading.value, setpoint, h.delivered);
      var base := Base(h, h.reference.value, reading.time);
      var t := Tick(h, write, exp, reading);
      && t.Ticked? && t.controller.correction == out.correction
      && t.controller.demand == Some(base + out.correction) && t.controller.expected == write(base + out.correction)
      && t.controller.delivered
           == (if t.controller.expected.Some? then Some(t.controller.expected.value - base) else None)
  {
    hide Laws.Step, Laws.Accepted, Feedforward.Evaluate, Feedforward.Valid;
    assert Seconds(reading.time - h.offset) == 0.0;
  }

  /** `regulate` with TRACK, a reading known and an output held, puts no step through the target exactly
      when the law in force can hold the output against the new setpoint: what is written is then what
      was held. */
  lemma {:induction false} TrackIsBumpless(c: State, write: real -> Option<real>, at: Source,
      generator: Option<Setpoint.Generator>,
                                           tuning: Option<Laws.Law>, time: int)
    requires Valid(c) && (tuning.Some? ==> Laws.Accepted(tuning.value))
    requires generator.Some? ==> Setpoint.Accepted(generator.value)
    requires c.reading.Some? && Held(c).Some? && LawAfter(c, tuning).Some? && Resolve(c, at, time).Aim?
    ensures var h := Regulate(c, write, at, generator, tuning, time, Track);
      var reference := Aimed(c, Resolve(c, at, time).value, generator, time);
      var hold := Held(c).value - Base(c, reference, time);
      && h.Handover? && h.controller.mode == Regulating && h.controller.reference == Some(reference)
      && h.controller.demand == Some(Held(c).value + h.bump) && h.controller.expected == write(Held(c).value + h.bump)
      && (h.bump == 0.0 <==>
            Laws.CanHold(LawAfter(c, tuning).value, c.reading.value.value, SetpointOf(c, reference, time), hold))
  {
    hide Regulate, Resolve, Aimed, Base, SetpointOf, Laws.Resume, Laws.Reset, Laws.CanHold, Laws.Accepted, Feedforward.Valid;
    Tracked(c, write, at, generator, tuning, time);
    var reference := Aimed(c, Resolve(c, at, time).value, generator, time);
    var hold := Held(c).value - Base(c, reference, time);
    var law := LawAfter(c, tuning).value;
    ResetHoldsAlike(law, c.reading.value.value, SetpointOf(c, reference, time), hold);
    Laws.SeedsWhatItCanHold(Laws.Reset(law), c.reading.value.value, SetpointOf(c, reference, time), hold);
  }

  /** And the first tick, a reading at that instant of the value the handover was seeded on, returns
      the correction seeded, whatever was delivered: everywhere but where no law of that kind can. */
  lemma {:induction false} FirstTickReproduces(c: State, write: real -> Option<real>, exp: real -> real, at: Source,
      generator: Option<Setpoint.Generator>, tuning: Option<Laws.Law>, time: int)
    requires Valid(c) && (tuning.Some? ==> Laws.Accepted(tuning.value))
    requires generator.Some? ==> Setpoint.Accepted(generator.value)
    requires c.reading.Some? && Held(c).Some? && LawAfter(c, tuning).Some? && Resolve(c, at, time).Aim?
    ensures var h := Regulate(c, write, at, generator, tuning, time, Track).controller;
      var reference := Aimed(c, Resolve(c, at, time).value, generator, time);
      var hold := Held(c).value - Base(c, reference, time);
      && Valid(h)
      && var t := Tick(h, write, exp, Reading(time, c.reading.value.value));
         && t.Ticked?
         && (t.controller.correction == h.correction <==>
               Laws.Reproduces(LawAfter(c, tuning).value, c.reading.value.value, SetpointOf(c, reference, time), hold))
         && (t.controller.correction == h.correction ==>
               t.controller.demand == h.demand && t.controller.expected == h.expected && t.controller.delivered == h.delivered)
  {
    hide Regulate, Resolve, Aimed, Tick, Laws.Step, Laws.Resume, Laws.Reset, Laws.Reproduces, Laws.Accepted,
         Laws.CanHold, Setpoint.Generate, Setpoint.Rate, Feedforward.Evaluate, Feedforward.Valid;
    Tracked(c, write, at, generator, tuning, time);
    var reference := Aimed(c, Resolve(c, at, time).value, generator, time);
    var hold := Held(c).value - Base(c, reference, time);
    var law := LawAfter(c, tuning).value;
    var reading, setpoint := c.reading.value.value, SetpointOf(c, reference, time);
    var h := Regulate(c, write, at, generator, tuning, time, Track).controller;
    ResetHoldsAlike(law, reading, setpoint, hold);
    Laws.FirstStepReproduces(Laws.Reset(law), exp, reading, setpoint, hold, h.delivered);
    TicksAtOnce(h, write, exp, Reading(time, reading));
  }

  /** However fast readings come, two steps of the law are at least the least period apart. */
  lemma {:induction false} StepsNoFaster(c: State, write: real -> Option<real>, exp: real -> real, reading: Reading)
    requires Valid(c) && c.minPeriod.Some? && c.lastStep.Some?
    ensures var t := Tick(c, write, exp, reading).controller;
      && t.reading == Some(reading)
      && (t.lastStep != c.lastStep ==>
            t.lastStep == Some(reading.time) && (reading.time - c.lastStep.value) as real >= c.minPeriod.value * 1_000_000_000.0)
      && (t.law != c.law ==> c.mode == Regulating && t.lastStep == Some(reading.time) && !TooSoon(c, reading.time))
  {
    hide Laws.Step, Laws.Accepted, Feedforward.Valid, Feedforward.Evaluate;
  }

  // What a tick does, mode by mode.

  /** A reading that comes sooner than the least period, or while the controller is held by hand, is only
      noted; one that comes with no reference is refused. */
  lemma {:induction false} TicksThatDoNothing(c: State, write: real -> Option<real>, exp: real -> real, reading: Reading)
    requires Valid(c)
    ensures var t := Tick(c, write, exp, reading);
      var soon := c.minPeriod.Some? && c.lastStep.Some?
                  && (reading.time - c.lastStep.value) as real < c.minPeriod.value * 1_000_000_000.0;
      && (soon || c.mode == Manual ==> t == Ticked(c.(reading := Some(reading))))
      && (!soon && c.mode != Manual && c.reference.None? ==> t == NoReference(c.(reading := Some(reading))))
  {
    hide Laws.Step, Laws.Accepted, Feedforward.Valid, Feedforward.Evaluate;
  }

  /** What is demanded: the feedforward of the setpoint then, moving as it then is, and the correction; what
      came of it, if that is known at once, less the feedforward is what the law is told next. */
  ghost predicate Demands(t: State, write: real -> Option<real>, reference: Reference, time: int)
    requires Valid(t)
  {
    var seconds := (time - t.started) as real / 1_000_000_000.0;
    var setpoint := match reference case At(value) => value case Along(motion) => Setpoint.Generate(motion, seconds);
    var rate := match reference case At(_) => 0.0 case Along(motion) => Setpoint.Rate(motion, seconds);
    var base := Feedforward.Evaluate(t.feedforward, setpoint, rate);
    && t.setpoint == Some(setpoint) && t.base == Some(base) && t.demand == Some(base + t.correction)
    && t.expected == write(base + t.correction)
    && (t.expected.None? ==> t.delivered == None)
    && (t.expected.Some? ==> t.delivered.Some? && t.delivered.value + base == t.expected.value)
  }

  /** In open loop the demand follows the reference, and neither the law nor its correction moves. */
  lemma {:induction false} OpenTickFollows(c: State, write: real -> Option<real>, exp: real -> real, reading: Reading)
    requires Valid(c) && c.mode == Open && c.reference.Some? && !TooSoon(c, reading.time)
    ensures var t := Tick(c, write, exp, reading);
      && t.Ticked? && Valid(t.controller) && Demands(t.controller, write, c.reference.value, reading.time)
      && t.controller.law == c.law && t.controller.correction == c.correction && t.controller.mode == Open
      && t.controller.reference == c.reference && t.controller.lastStep == c.lastStep && t.controller.offset == c.offset
      && t.controller.reading == Some(reading)
  {
    hide Laws.Step, Laws.Accepted, Feedforward.Valid, Feedforward.Evaluate;
  }

  /** Regulating, the law steps on the reading and the setpoint at its time, on its own time in seconds, and
      on what was delivered last; its correction is what is added to the feedforward. */
  lemma {:induction false} RegulatingTickSteps(c: State, write: real -> Option<real>, exp: real -> real, reading: Reading)
    requires Valid(c) && c.mode == Regulating && c.reference.Some? && !TooSoon(c, reading.time)
    ensures var t := Tick(c, write, exp, reading);
      && (c.law.None? <==> t.NoLaw?) && (c.law.Some? <==> t.Ticked?)
      && t.controller.lastStep == Some(reading.time) && t.controller.reading == Some(reading)
      && t.controller.offset == SkipOutage(c, reading.time).offset && t.controller.reference == c.reference
      && (c.law.Some? ==>
            && Valid(t.controller) && Demands(t.controller, write, c.reference.value, reading.time)
            && t.controller.setpoint.Some? && t.controller.mode == Regulating
            && var out := Laws.Step(c.law.value, exp, (reading.time - t.controller.offset) as real / 1_000_000_000.0,
                                    reading.value, t.controller.setpoint.value, c.delivered);
               t.controller.law == Some(out.law) && t.controller.correction == out.correction)
  {
    hide Laws.Step, Laws.Accepted, Feedforward.Valid, Feedforward.Evaluate, SkipOutage;
    SkipKeeps(c.(reading := Some(reading)), reading.time);
    SkipsAlike(c, reading);
    if c.law.Some? {
      var elapsed := Seconds(reading.time - SkipOutage(c, reading.time).offset);
      StepKeepsAccepted(c.law.value, exp, elapsed, reading.value, SetpointOf(c, c.reference.value, reading.time), c.delivered);
    }
  }

  lemma {:induction false} SkipsAlike(c: State, reading: Reading)
    ensures SkipOutage(c.(reading := Some(reading)), reading.time) == SkipOutage(c, reading.time).(reading := Some(reading))
  {
  }

  // The other ways to hand over.

  /** Without a transfer the law is left as it is, in the middle of its run, and its correction with it. */
  lemma {:induction false} KeepLeavesTheLaw(c: State, write: real -> Option<real>, value: real,
      generator: Option<Setpoint.Generator>, time: int)
    requires Valid(c) && (generator.Some? ==> Setpoint.Accepted(generator.value))
    ensures var h := Regulate(c, write, Exactly(value), generator, None, time, Keep);
      && h.Handover? && h.controller.mode == Regulating
      && h.controller.law == c.law && h.controller.correction == c.correction
      && h.controller.offset == c.offset && h.controller.lastStep == c.lastStep
      && h.controller.setpoint == Some(value) && h.controller.base.Some?
      && h.controller.demand == Some(h.controller.base.value + c.correction)
      && h.controller.reference == Some(
           if generator.Some?
           then Along(Setpoint.Start(generator.value, (time - c.started) as real / 1_000_000_000.0, value)) else At(value))
  {
    hide Laws.Accepted, Feedforward.Valid, Feedforward.Evaluate, Setpoint.Start;
  }

  /** Carrying, the law starts afresh seeded with the correction in force; restarting, or with no reading,
      it starts from nothing. */
  lemma {:induction false} CarryAndRestart(c: State, write: real -> Option<real>, value: real,
      generator: Option<Setpoint.Generator>, time: int, transfer: Transfer)
    requires Valid(c) && (generator.Some? ==> Setpoint.Accepted(generator.value))
    requires c.law.Some? && (transfer == Carry || transfer == Restart)
    ensures Laws.Accepted(Laws.Reset(c.law.value))
    ensures var h := Regulate(c, write, Exactly(value), generator, None, time, transfer);
      && h.Handover? && h.controller.mode == Regulating && h.controller.offset == time && h.controller.lastStep == None
      && h.controller.setpoint.Some? && h.controller.base.Some?
      && h.controller.demand == Some(h.controller.base.value + h.controller.correction)
      && h.controller.reference == Some(
           if generator.Some?
           then Along(Setpoint.Start(generator.value, (time - c.started) as real / 1_000_000_000.0, value)) else At(value))
      && (transfer == Restart || c.reading.None? ==>
            h.controller.law == Some(Laws.Reset(c.law.value)) && h.controller.correction == 0.0)
      && (transfer == Carry && c.reading.Some? ==>
            var out := Laws.Resume(Laws.Reset(c.law.value), c.reading.value.value, h.controller.setpoint.value, c.correction);
            h.controller.law == Some(out.law) && h.controller.correction == out.correction)
  {
    hide Laws.Accepted, Laws.Reset, Laws.Resume, Feedforward.Valid, Feedforward.Evaluate, Setpoint.Start;
    ResetKeepsAccepted(c.law.value);
    var reference := Aimed(c, value, generator, time);
    SeededIsValid(c.(reference := Some(reference)), reference, time, transfer);
  }

  /** Where each source aims, and what is refused: then nothing changes. */
  lemma {:induction false} AimsAt(c: State, write: real -> Option<real>, at: Source, generator: Option<Setpoint.Generator>,
      tuning: Option<Laws.Law>, time: int, transfer: Transfer)
    requires Valid(c) && (tuning.Some? ==> Laws.Accepted(tuning.value))
    requires generator.Some? ==> Setpoint.Accepted(generator.value)
    ensures var h := Regulate(c, write, at, generator, tuning, time, transfer);
      && (at == Process ==> (h.Refused? <==> c.reading.None?) && (h.Refused? ==> h.why == NoReading))
      && (at == TheSetpoint ==> (h.Refused? <==> c.reference.None?) && (h.Refused? ==> h.why == NotStarted))
      && (at == TheDemand && c.reference.None? ==> h == Refused(NotStarted))
      && (at.Exactly? ==> h.Handover?)
      && (h.Handover? && generator.None? ==>
            && (at == Process ==> h.controller.setpoint == Some(c.reading.value.value))
            && (at == TheSetpoint && c.reference.value.At? ==> h.controller.setpoint == Some(c.reference.value.value))
            && (at.Exactly? ==> h.controller.setpoint == Some(at.value)))
      && (h.Handover? ==> h.bump == if c.expected.Some? then h.controller.demand.value - c.expected.value
                                    else if c.demand.Some? then h.controller.demand.value - c.demand.value else 0.0)
  {
    hide Laws.Accepted, Laws.Reset, Laws.Resume, Feedforward.Valid, Feedforward.Evaluate, Feedforward.Invert, Setpoint.Start, Seeded;
    var aim := Resolve(c, at, time);
    if aim.Aim? {
      var reference := Aimed(c, aim.value, generator, time);
      var tuned := c.(law := if tuning.Some? then tuning else c.law, reference := Some(reference));
      SeededIsValid(tuned, reference, time, transfer);
    }
  }

  // A deferred commit.

  /** A commit that comes later closes the tick as one at once would have. */
  lemma {:induction false} LateIsAsGood(c: State, setpoint: real, rate: real, value: real)
    requires Valid(c)
    ensures Delivered(Apply(c, (d: real) => None, setpoint, rate), Some(value)) == Apply(c, (d: real) => Some(value), setpoint, rate)
  {
  }

  // Aiming at the demand.

  /** To aim at the present demand is to aim at a setpoint whose feedforward alone asks for it, at the
      rate the setpoint is moving at, wherever there is one: always but for a table or a flat line. */
  lemma {:induction false} DemandAimGivesTheDemand(c: State, time: int)
    requires Valid(c) && c.reference.Some? && Resolve(c, TheDemand, time).Aim?
    requires c.feedforward.Table? ==>
      var d := Base(c, c.reference.value, time) + c.correction
             - Feedforward.Extra(c.feedforward.rateGain, RateOf(c, c.reference.value, time));
      Feedforward.Smooth(c.feedforward.points) && Feedforward.Spans(c.feedforward.points, d)
    ensures Feedforward.Evaluate(c.feedforward, Resolve(c, TheDemand, time).value, RateOf(c, c.reference.value, time))
         == Base(c, c.reference.value, time) + c.correction
  {
    hide Feedforward.Interpolate, Feedforward.Ascending, Feedforward.Descending, Feedforward.Inverse, Feedforward.Smooth, Feedforward.Spans;
    var demand := Base(c, c.reference.value, time) + c.correction;
    var rate := RateOf(c, c.reference.value, time);
    if c.feedforward.Table? {
      Feedforward.TableEvaluatesItsInverse(c.feedforward, rate);
      assert Feedforward.EvaluatesBack(c.feedforward, demand, rate);
    } else {
      Feedforward.OthersRoundTrip(c.feedforward, demand, rate);
    }
  }

  // The law's time.

  function LawTime(c: State, time: int): int {
    time - c.offset
  }

  /** Once a usual interval is known, the law sees a gap past three of them as one, and any other as it
      was: no step of the law is longer than three usual intervals, and the time kept out of the law
      is the outage less one interval. */
  lemma {:induction false} OutageIsOneStep(c: State, time: int)
    requires c.lastStep.Some? && c.interval.Some? && c.interval.value > 0 && time >= c.lastStep.value
    ensures var s := SkipOutage(c, time);
      var gap, usual := time - c.lastStep.value, c.interval.value;
      && LawTime(s, time) - LawTime(c, c.lastStep.value) == (if gap > 3 * usual then usual else gap)
      && LawTime(s, time) - LawTime(c, c.lastStep.value) <= 3 * usual
      && s.offset >= c.offset && s.interval.Some? && 0 < s.interval.value <= 3 * usual
  {
  }

  function Skipped(c: State, times: seq<int>): State {
    if times == [] then c else SkipOutage(Skipped(c, times[..|times| - 1]), times[|times| - 1]).(lastStep := Some(times[|times| - 1]))
  }

  ghost predicate Onward(times: seq<int>) {
    forall i, j :: 0 <= i <= j < |times| ==> times[i] <= times[j]
  }

  /** Over any run of readings in order, the law's time never runs backwards nor faster than the
      clock's, and every step of it is within three of the interval then usual. */
  lemma {:induction false} LawTimeKeepsPace(c: State, times: seq<int>)
    requires c.lastStep.None? && (c.interval.Some? ==> c.interval.value > 0) && Onward(times) && |times| >= 2
    ensures var n := |times| - 1;
      var before, after := Skipped(c, times[..n]), Skipped(c, times);
      var step := LawTime(after, times[n]) - LawTime(before, times[n - 1]);
      && 0 <= step <= times[n] - times[n - 1]
      && (before.interval.Some? ==> step <= 3 * before.interval.value)
      && LawTime(after, times[n]) - LawTime(Skipped(c, times[..1]), times[0]) <= times[n] - times[0]
    decreases |times|
  {
    var n := |times| - 1;
    SkippedAt(c, times[..n]);
    var before := Skipped(c, times[..n]);
    if before.interval.Some? { OutageIsOneStep(before, times[n]); }
    if n >= 2 {
      LawTimeKeepsPace(c, times[..n]);
      assert times[..n][..n - 1] == times[..n - 1] && times[..n][..1] == times[..1];
    } else {
      assert times[..n] == times[..1];
    }
  }

  lemma {:induction false} SkippedAt(c: State, times: seq<int>)
    requires c.lastStep.None? && (c.interval.Some? ==> c.interval.value > 0) && Onward(times) && times != []
    ensures var s := Skipped(c, times);
      s.lastStep == Some(times[|times| - 1]) && (s.interval.Some? ==> s.interval.value > 0)
    decreases |times|
  {
    var n := |times| - 1;
    if n > 0 { SkippedAt(c, times[..n]); }
  }

  lemma {:induction false} SameAim(c: State, d: State, reference: Reference, time: int)
    requires c.started == d.started
    ensures SetpointOf(c, reference, time) == SetpointOf(d, reference, time) && RateOf(c, reference, time) == RateOf(d, reference, time)
  {
  }

  lemma {:induction false} SkipKeeps(c: State, time: int)
    ensures var s := SkipOutage(c, time);
      s == c.(offset := s.offset, interval := s.interval)
  {
  }

  // The code, updating its fields in place, against the functions above.

  ghost predicate Ended(t: Ticked, now: State, ok: bool) {
    now == t.controller && ok == t.Ticked?
  }

  ghost predicate HandedOver(h: Handover, before: State, now: State, refused: bool, bump: real) {
    if h.Handover? then !refused && now == h.controller && bump == h.bump else refused && now == before
  }

  class Controller {
    const started: int
    const feedforward: Feedforward.Feedforward
    const minPeriod: Option<real>
    var law: Option<Laws.Law>
    var correction: real
    var offset: int
    var reference: Option<Reference>
    var setpoint: Option<real>
    var demand: Option<real>
    var expected: Option<real>
    var reading: Option<Reading>
    var delivered: Option<real>
    var mode: Mode
    var base: Option<real>
    var lastStep: Option<int>
    var interval: Option<int>

    constructor (started: int, feedforward: Feedforward.Feedforward, minPeriod: Option<real>, law: Option<Laws.Law>)
      requires Feedforward.Valid(feedforward) && (law.Some? ==> Laws.Accepted(law.value))
      ensures Valid(View()) && View().law == law && mode == Manual && correction == 0.0 && reference == None && reading == None
    {
      this.started, this.feedforward, this.minPeriod, this.law := started, feedforward, minPeriod, law;
      correction, offset, reference, setpoint, demand, expected := 0.0, 0, None, None, None, None;
      reading, delivered, mode, base, lastStep, interval := None, None, Manual, None, None, None;
    }

    ghost function View(): State
      reads this
    {
      State(started, law, feedforward, minPeriod, correction, offset, reference, setpoint, demand, expected, reading,
            delivered, mode, base, lastStep, interval)
    }

    function SetpointAt(time: int): real
      requires reference.Some?
      reads this
      ensures SetpointAt(time) == SetpointOf(View(), reference.value, time)
    {
      match reference.value
      case At(value) => value
      case Along(motion) => Setpoint.Generate(motion, Seconds(time - started))
    }

    function RateAt(time: int): real
      reads this
      ensures reference.Some? ==> RateAt(time) == RateOf(View(), reference.value, time)
    {
      match reference
      case Some(Along(motion)) => Setpoint.Rate(motion, Seconds(time - started))
      case _ => 0.0
    }

    method ApplyDemand(write: real -> Option<real>, setpoint: real, rate: real)
      requires Valid(View())
      modifies this
      ensures View() == Apply(old(View()), write, setpoint, rate) && demand.Some?
    {
      this.setpoint := Some(setpoint);
      var value := Feedforward.Evaluate(feedforward, setpoint, rate);
      base := Some(value);
      demand := Some(value + correction);
      expected := write(value + correction);
      delivered := if expected.None? then None else Some(expected.value - value);
    }

    method Skip(time: int)
      modifies this
      ensures View() == SkipOutage(old(View()), time)
    {
      if lastStep.None? { return; }
      var gap := time - lastStep.value;
      if interval.Some? && gap > OUTAGE_STEPS * interval.value {
        offset := offset + (gap - interval.value);
      } else if gap > 0 {
        interval := Some(gap);
      }
    }

    /** The law's part of a tick. */
    method StepLaw(exp: real -> real, arrived: Reading, aim: real) returns (ok: bool)
      requires Valid(View())
      modifies this
      ensures Valid(View())
      ensures var skipped := SkipOutage(old(View()), arrived.time).(lastStep := Some(arrived.time));
        && ok == skipped.law.Some?
        && View() == if skipped.law.None? then skipped else
             var out := Laws.Step(skipped.law.value, exp, Seconds(arrived.time - skipped.offset), arrived.value, aim, skipped.delivered);
             skipped.(law := Some(out.law), correction := out.correction)
    {
      hide Laws.Step, Laws.Accepted, Feedforward.Valid;
      Skip(arrived.time);
      lastStep := Some(arrived.time);
      if law.None? { return false; }
      StepKeepsAccepted(law.value, exp, Seconds(arrived.time - offset), arrived.value, aim, delivered);
      var out := Laws.Step(law.value, exp, Seconds(arrived.time - offset), arrived.value, aim, delivered);
      law := Some(out.law);
      correction := out.correction;
      return true;
    }

    method OnReading(write: real -> Option<real>, exp: real -> real, arrived: Reading) returns (ok: bool)
      requires Valid(View())
      modifies this
      ensures Ended(Tick(old(View()), write, exp, arrived), View(), ok)
    {
      hide Laws.Step, Laws.Accepted, Feedforward.Valid, SkipOutage, Apply, SetpointOf, RateOf;
      reading := Some(arrived);
      if minPeriod.Some? && lastStep.Some? && (arrived.time - lastStep.value) as real < minPeriod.value * 1_000_000_000.0 {
        return true;
      }
      if mode == Manual { return true; }
      if reference.None? { return false; }
      var aim, rate := SetpointAt(arrived.time), RateAt(arrived.time);
      SameAim(View(), old(View()), reference.value, arrived.time);
      if mode == Regulating {
        ghost var before := View();
        ok := StepLaw(exp, arrived, aim);
        SkipKeeps(before, arrived.time);
        SameAim(View(), old(View()), reference.value, arrived.time);
        if !ok { return false; }
      }
      ApplyDemand(write, aim, rate);
      return true;
    }

    method Aiming(at: Source, time: int) returns (aim: Aim)
      requires Valid(View())
      ensures aim == Resolve(View(), at, time)
    {
      match at {
        case Process => return if reading.Some? then Aim.Aim(reading.value.value) else NoReading;
        case TheSetpoint => return if reference.Some? then Aim.Aim(SetpointAt(time)) else NotStarted;
        case TheDemand =>
          if reference.None? { return NotStarted; }
          var asked := Feedforward.Evaluate(feedforward, SetpointAt(time), RateAt(time)) + correction;
          var back := Feedforward.Invert(feedforward, asked, RateAt(time));
          return if back.Aim? then Aim.Aim(back.setpoint) else NotInvertible;
        case Exactly(v) => return Aim.Aim(v);
      }
    }

    /** What a handover does to the law. */
    method Seed(time: int, transfer: Transfer)
      requires Valid(View()) && reference.Some?
      modifies this
      ensures View() == Seeded(old(View()), old(reference.value), time, transfer) && Valid(View())
    {
      hide Laws.Resume, Laws.Reset, Laws.Accepted, Feedforward.Evaluate, Feedforward.Valid, SetpointOf, RateOf;
      SeededIsValid(View(), reference.value, time, transfer);
      var held := if expected.Some? then expected else demand;
      var aim, rate := SetpointAt(time), RateAt(time);
      offset := time;
      lastStep := None;
      if law.Some? {
        ResetKeepsAccepted(law.value);
        law := Some(Laws.Reset(law.value));
      }
      if reading.None? || transfer == Restart {
        correction := 0.0;
      } else if law.Some? {
        var hold := if transfer == Carry || held.None? then correction else held.value - Feedforward.Evaluate(feedforward, aim, rate);
        var out := Laws.Resume(law.value, reading.value.value, aim, hold);
        law := Some(out.law);
        correction := out.correction;
      }
    }

    /** The new tuning, and the new reference. */
    method PointAt(value: real, generator: Option<Setpoint.Generator>, tuning: Option<Laws.Law>, time: int)
      requires Valid(View()) && (tuning.Some? ==> Laws.Accepted(tuning.value))
      requires generator.Some? ==> Setpoint.Accepted(generator.value)
      modifies this
      ensures Valid(View())
      ensures View() == old(View()).(law := if tuning.Some? then tuning else old(law),
                                     reference := Some(Aimed(old(View()), value, generator, time)))
    {
      hide Laws.Accepted, Feedforward.Valid, Setpoint.Start;
      if tuning.Some? { law := tuning; }
      reference := Some(At(value));
      if generator.Some? { reference := Some(Along(Setpoint.Start(generator.value, Seconds(time - started), value))); }
    }

    method RegulateAt(write: real -> Option<real>, at: Source, generator: Option<Setpoint.Generator>,
                      tuning: Option<Laws.Law>, time: int, transfer: Transfer) returns (refused: bool, bump: real)
      requires Valid(View()) && (tuning.Some? ==> Laws.Accepted(tuning.value))
      requires generator.Some? ==> Setpoint.Accepted(generator.value)
      modifies this
      ensures HandedOver(Regulate(old(View()), write, at, generator, tuning, time, transfer), old(View()), View(), refused, bump)
    {
      hide Laws.Accepted, Resolve, Seeded, Apply, Feedforward.Valid, Setpoint.Start, SetpointOf, RateOf;
      var held := if expected.Some? then expected else demand;
      var to := Aiming(at, time);
      if !to.Aim? { return true, 0.0; }
      PointAt(to.value, generator, tuning, time);
      var aim := to.value;
      var rate := RateAt(time);
      ghost var tuned := View();
      SeededIsValid(tuned, reference.value, time, transfer);
      if transfer != Keep {
        aim := SetpointAt(time);
        Seed(time, transfer);
      }
      mode := Regulating;
      SameAim(tuned, old(View()), tuned.reference.value, time);
      ApplyDemand(write, aim, rate);
      return false, if held.None? then 0.0 else demand.value - held.value;
    }

    method Closed(value: Option<real>)
      modifies this
      ensures View() == Delivered(old(View()), value)
    {
      expected := value;
      delivered := if value.None? || base.None? then None else Some(value.value - base.value);
    }
  }
}
