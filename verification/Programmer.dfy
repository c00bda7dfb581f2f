/** Running programs (`engine/src/flyball/sequencing/programmer.py`).

    Callers of `start` and `interrupt` and the worker thread share a few fields under one lock; each
    region under it is a step here, and so is each thing done between them. A driver is what carries a
    loaded program: the caller of `start` while steps apply at once, the worker after. */
module Programmer {
  import opened Options

  datatype Outcome = Pending | Fired | Interrupted | Expired

  /** An activity settles once; what it failed with is kept beside that. */
  datatype Cell = Cell(outcome: Outcome, error: bool)

  datatype Place =
    | Looping                                          // `_apply_atomics` before its loop condition
    | Applying(i: nat, onWorker: bool)                 // in `_apply`, the command not begun
    | Running(i: nat, onWorker: bool)
    | Publishing(i: nat, onWorker: bool, made: Option<nat>)
    | Spawning(activity: nat)                          // the worker thread is not under way yet
    | Checking(i: nat, activity: nat)
    | Entering(i: nat, activity: nat)                  // registering and attaching
    | Waiting(i: nat, activity: nat)
    | Moving(i: nat)
    | Failing
    | Finishing
    | Over

  datatype Ending = Failed | WasInterrupted | Finished

  /** Why a driver left its loop. */
  datatype Why = Going | AllDone | SawAbort | Unfired(activity: nat) | Raised

  /** `begun` is the steps whose commands were run, in order; `atAbort` how many there were when
      `_abort` was first set; both, like `why`, are only watched. */
  datatype Driver = Driver(steps: nat, at: Place, begun: seq<nat>, atAbort: Option<nat>, why: Why, ending: Option<Ending>)

  datatype State = State(
    program: Option<nat>, activity: Option<nat>, step: nat, abort: bool, error: bool,
    drivers: seq<Driver>, cells: seq<Cell>, endings: seq<nat>)

  const IDLE := State(None, None, 0, false, false, [], [], [])

  datatype Choice = Plain | Raise | Make

  datatype Action =
    | Load(steps: nat)
    | Interrupt
    | Settle(activity: nat, outcome: Outcome)
    | Fail(activity: nat)
    | Go(p: nat, choice: Choice)

  function Settled(c: Cell, outcome: Outcome): Cell {
    if c.outcome == Pending then c.(outcome := outcome) else c
  }

  function Silenced(cells: seq<Cell>, activity: Option<nat>): seq<Cell> {
    if activity.Some? && activity.value < |cells|
    then cells[activity.value := Settled(cells[activity.value], Interrupted)] else cells
  }

  function Moved(s: State, p: nat, at: Place): State
    requires p < |s.drivers|
  {
    s.(drivers := s.drivers[p := s.drivers[p].(at := at)])
  }

  function Leave(s: State, p: nat, why: Why): State
    requires p < |s.drivers|
  {
    s.(drivers := s.drivers[p := s.drivers[p].(at := Finishing, why := why)])
  }

  // The regions under the lock.

  /** `load` raises while a program runs. */
  function LoadProgram(s: State, steps: nat): State {
    if s.program.Some? || steps == 0 then s
    else State(Some(|s.drivers|), None, 0, false, false, s.drivers + [Driver(steps, Looping, [], None, Going, None)],
               s.cells, s.endings)
  }

  function RequestAbort(s: State): State {
    s.(abort := true, cells := Silenced(s.cells, s.activity),
       drivers :=
         if s.program.Some? && s.program.value < |s.drivers| && s.drivers[s.program.value].atAbort.None?
         then s.drivers[s.program.value := s.drivers[s.program.value].(atAbort := Some(|s.drivers[s.program.value].begun|))]
         else s.drivers)
  }

  function LoopHead(s: State, p: nat): State
    requires p < |s.drivers|
  {
    if s.step < s.drivers[p].steps && !s.abort then Moved(s, p, Applying(s.step, false))
    else Leave(s, p, if s.step >= s.drivers[p].steps then AllDone else SawAbort)
  }

  function Publish(s: State, p: nat, i: nat, onWorker: bool, made: Option<nat>): State
    requires p < |s.drivers|
  {
    var shown := s.(activity := made, cells := if s.abort then Silenced(s.cells, made) else s.cells);
    match made
    case Some(a) => Moved(shown, p, if onWorker then Checking(i, a) else Spawning(a))
    case None => if onWorker then Moved(shown, p, Moving(i)) else Moved(shown.(step := s.step + 1), p, Looping)
  }

  function MoveOn(s: State, p: nat, i: nat): State
    requires p < |s.drivers|
  {
    if s.abort || s.program != Some(p) || i + 1 >= s.drivers[p].steps
    then Leave(s, p, if i + 1 >= s.drivers[p].steps then AllDone else SawAbort)
    else Moved(s.(step := i + 1), p, Applying(i + 1, true))
  }

  function Finish(s: State, p: nat): State
    requires p < |s.drivers|
  {
    if s.program != Some(p) then Moved(s, p, Over)
    else
      var ending := if s.error then Failed else if s.abort then WasInterrupted else Finished;
      s.(program := None, activity := None, step := 0, abort := false, endings := s.endings + [p],
         drivers := s.drivers[p := s.drivers[p].(at := Over, ending := Some(ending))])
  }

  predicate Enabled(s: State, a: Action) {
    match a
    case Load(steps) => steps > 0
    case Interrupt => true
    case Settle(activity, outcome) => activity < |s.cells| && outcome != Pending
    case Fail(activity) => activity < |s.cells|
    case Go(p, _) =>
      && p < |s.drivers| && !s.drivers[p].at.Over?
      && (s.drivers[p].at.Waiting? ==>
            s.drivers[p].at.activity < |s.cells| && s.cells[s.drivers[p].at.activity].outcome != Pending)
  }

  /** One step of the driver of program `p`. */
  function Drive(s: State, p: nat, choice: Choice): State
    requires Enabled(s, Go(p, choice))
  {
    var d := s.drivers[p];
    match d.at
    case Looping => LoopHead(s, p)
    case Applying(i, onWorker) =>
      s.(drivers := s.drivers[p := d.(at := Running(i, onWorker), begun := d.begun + [i])])
    case Running(i, onWorker) =>
      if choice == Raise then Moved(s, p, Failing)
      else if choice == Plain then Moved(s, p, Publishing(i, onWorker, None))
      else Moved(s.(cells := s.cells + [Cell(Pending, false)]), p, Publishing(i, onWorker, Some(|s.cells|)))
    case Publishing(i, onWorker, made) => Publish(s, p, i, onWorker, made)
    case Spawning(a) => Moved(s, p, Checking(s.step, a))
    case Checking(i, a) => if s.abort then Leave(s, p, SawAbort) else Moved(s, p, Entering(i, a))
    case Entering(i, a) => if choice == Raise then Moved(s, p, Failing) else Moved(s, p, Waiting(i, a))
    case Waiting(i, a) =>
      if s.cells[a].error then Moved(s, p, Failing)
      else if s.cells[a].outcome == Fired then Moved(s, p, Moving(i))
      else Leave(s, p, Unfired(a))
    case Moving(i) => MoveOn(s, p, i)
    case Failing => Leave(s.(error := true), p, Raised)
    case Finishing => Finish(s, p)
    case Over => s
  }

  function Take(s: State, a: Action): State
    requires Enabled(s, a)
  {
    match a
    case Load(steps) => LoadProgram(s, steps)
    case Interrupt => RequestAbort(s)
    case Settle(activity, outcome) => s.(cells := s.cells[activity := Settled(s.cells[activity], outcome)])
    case Fail(activity) => s.(cells := s.cells[activity := Cell(Settled(s.cells[activity], Fired).outcome, true)])
    case Go(p, choice) => Drive(s, p, choice)
  }

  // What every step keeps.

  function Upto(n: nat): seq<nat> {
    seq(n, i => i)
  }

  /** How many commands have begun, from where the driver is. */
  predicate InOrder(d: Driver, step: nat) {
    && step <= d.steps
    && match d.at
       case Looping => d.begun == Upto(step)
       case Applying(i, _) => i == step < d.steps && d.begun == Upto(step)
       case Running(i, _) => i == step < d.steps && d.begun == Upto(step + 1)
       case Publishing(i, _, _) => i == step < d.steps && d.begun == Upto(step + 1)
       case Spawning(_) => step < d.steps && d.begun == Upto(step + 1)
       case Checking(i, _) => i == step < d.steps && d.begun == Upto(step + 1)
       case Entering(i, _) => i == step < d.steps && d.begun == Upto(step + 1)
       case Waiting(i, _) => i == step < d.steps && d.begun == Upto(step + 1)
       case Moving(i) => i == step < d.steps && d.begun == Upto(step + 1)
       case _ => |d.begun| <= d.steps && d.begun == Upto(|d.begun|)
  }

  predicate Holds(at: Place) {
    at.Spawning? || at.Checking? || at.Entering? || at.Waiting?
  }

  /** After `_abort` at most the command about to begin begins, and nothing unsettled is waited on. */
  predicate Stopping(s: State, d: Driver) {
    && (s.abort <==> d.atAbort.Some?)
    && (s.abort ==> |d.begun| + (if d.at.Applying? then 1 else 0) <= d.atAbort.value + 1)
    && (s.activity.Some? ==> s.activity.value < |s.cells|)
    && (Holds(d.at) ==> s.activity == Some(d.at.activity))
    && (d.at.Publishing? && d.at.made.Some? ==> d.at.made.value < |s.cells|)
    && (s.abort && Holds(d.at) ==> s.cells[d.at.activity].outcome != Pending)
  }

  predicate Reasoned(s: State, d: Driver) {
    && (d.why == Going <==> !d.at.Finishing? && !d.at.Over?)
    && (d.why == AllDone ==> |d.begun| == d.steps)
    && (d.why == SawAbort ==> d.atAbort.Some?)
    && (d.why.Unfired? ==> d.why.activity < |s.cells| && s.cells[d.why.activity].outcome in {Interrupted, Expired})
  }

  predicate Concluded(d: Driver) {
    && d.ending.Some?
    && (d.ending.value == Failed <==> d.why == Raised)
    && (d.ending.value == Finished ==> d.atAbort.None?)
    && (d.ending.value == WasInterrupted ==> d.atAbort.Some?)
    && |d.begun| <= d.steps && d.begun == Upto(|d.begun|)
    && (d.atAbort.Some? ==> |d.begun| <= d.atAbort.value + 1)
  }

  predicate DriverSound(s: State, p: nat)
    requires p < |s.drivers|
  {
    var d := s.drivers[p];
    && Reasoned(s, d)
    && (d.at.Over? <==> s.program != Some(p))
    && (if d.at.Over? then Concluded(d)
        else InOrder(d, s.step) && Stopping(s, d) && d.ending.None? && (s.error <==> d.why == Raised))
  }

  predicate Sound(s: State) {
    && (forall p :: 0 <= p < |s.drivers| ==> DriverSound(s, p))
    && (s.program.Some? ==> s.program.value + 1 == |s.drivers|)
    && s.endings == Upto(if s.program.Some? then |s.drivers| - 1 else |s.drivers|)
  }

  lemma {:induction false} LoadKeepsSound(s: State, steps: nat)
    requires Sound(s) && steps > 0
    ensures Sound(LoadProgram(s, steps))
  {
    var t := LoadProgram(s, steps);
    if s.program.None? {
      forall p | 0 <= p < |t.drivers| ensures DriverSound(t, p) {
        if p < |s.drivers| { assert DriverSound(s, p) && t.drivers[p] == s.drivers[p]; }
      }
    }
  }

  lemma {:induction false} CellsKeepSound(s: State, cells: seq<Cell>)
    requires Sound(s) && |cells| >= |s.cells|
    requires forall a :: 0 <= a < |s.cells| && s.cells[a].outcome != Pending ==> cells[a].outcome == s.cells[a].outcome
    ensures Sound(s.(cells := cells))
  {
    forall p | 0 <= p < |s.drivers| ensures DriverSound(s.(cells := cells), p) { assert DriverSound(s, p); }
  }

  lemma {:induction false} AbortKeepsSound(s: State)
    requires Sound(s)
    ensures Sound(RequestAbort(s))
  {
    var t := RequestAbort(s);
    forall p | 0 <= p < |t.drivers| ensures DriverSound(t, p) {
      assert DriverSound(s, p);
    }
  }

  /** The others are over, and untouched: only the driver that moved is to be looked at. */
  lemma {:induction false} OthersSound(s: State, t: State, p: nat)
    requires Sound(s) && p < |s.drivers| == |t.drivers| && s.program == Some(p)
    requires forall q :: 0 <= q < |s.drivers| && q != p ==> t.drivers[q] == s.drivers[q]
    requires |t.cells| >= |s.cells|
    requires forall a :: 0 <= a < |s.cells| && s.cells[a].outcome != Pending ==> t.cells[a].outcome == s.cells[a].outcome
    requires t.program == None || t.program == s.program
    requires t.endings == if t.program.None? then s.endings + [p] else s.endings
    requires DriverSound(t, p)
    ensures Sound(t)
  {
    hide InOrder, Concluded, Stopping;
    forall q | 0 <= q < |t.drivers| ensures DriverSound(t, q) {
      assert DriverSound(s, q);
    }
  }

  lemma {:induction false} DriveKeepsSound(s: State, p: nat, choice: Choice)
    requires Sound(s) && Enabled(s, Go(p, choice))
    ensures Sound(Drive(s, p, choice))
  {
    hide Sound;
    Current(s, p);
    DriverStep(s, p, choice);
    DriveTouches(s, p, choice);
    OthersSound(s, Drive(s, p, choice), p);
  }

  lemma {:induction false} Current(s: State, p: nat)
    requires Sound(s) && p < |s.drivers| && !s.drivers[p].at.Over?
    ensures s.program == Some(p) && DriverSound(s, p)
  {
    assert DriverSound(s, p);
  }

  /** A driver leaves the others alone, and what has settled as it is. */
  ghost predicate Touches(s: State, t: State, p: nat) {
    && |t.drivers| == |s.drivers| && (forall q :: 0 <= q < |s.drivers| && q != p ==> t.drivers[q] == s.drivers[q])
    && |t.cells| >= |s.cells|
    && (forall a :: 0 <= a < |s.cells| && s.cells[a].outcome != Pending ==> t.cells[a].outcome == s.cells[a].outcome)
    && (t.program == None || t.program == s.program)
    && t.endings == if t.program.None? then s.endings + [p] else s.endings
  }

  lemma {:induction false} PublishTouches(s: State, p: nat, i: nat, onWorker: bool, made: Option<nat>)
    requires p < |s.drivers| && s.program == Some(p)
    ensures Touches(s, Publish(s, p, i, onWorker, made), p)
  {
  }

  lemma {:induction false} FinishTouches(s: State, p: nat)
    requires p < |s.drivers| && s.program == Some(p)
    ensures Touches(s, Finish(s, p), p)
  {
  }

  lemma {:induction false} DriveTouches(s: State, p: nat, choice: Choice)
    requires p < |s.drivers| && DriverSound(s, p) && s.program == Some(p) && Enabled(s, Go(p, choice))
    ensures Touches(s, Drive(s, p, choice), p)
  {
    hide Publish, Finish, DriverSound;
    match s.drivers[p].at
    case Publishing(i, onWorker, made) => PublishTouches(s, p, i, onWorker, made);
    case Finishing => FinishTouches(s, p);
    case _ =>
  }

  lemma {:induction false} DriverStep(s: State, p: nat, choice: Choice)
    requires p < |s.drivers| && DriverSound(s, p) && s.program == Some(p) && Enabled(s, Go(p, choice))
    ensures p < |Drive(s, p, choice).drivers| && DriverSound(Drive(s, p, choice), p)
  {
    match s.drivers[p].at
    case Looping => ApplyStep(s, p, choice);
    case Applying(i, onWorker) => ApplyStep(s, p, choice);
    case Running(i, onWorker) => ApplyStep(s, p, choice);
    case Publishing(i, onWorker, made) => PublishStep(s, p, choice);
    case Spawning(a) => WaitStep(s, p, choice);
    case Checking(i, a) => WaitStep(s, p, choice);
    case Entering(i, a) => WaitStep(s, p, choice);
    case Waiting(i, a) => WaitStep(s, p, choice);
    case Moving(i) => EndStep(s, p, choice);
    case Failing => EndStep(s, p, choice);
    case Finishing => EndStep(s, p, choice);
    case Over =>
  }

  lemma {:induction false} ApplyStep(s: State, p: nat, choice: Choice)
    requires p < |s.drivers| && DriverSound(s, p) && s.program == Some(p) && Enabled(s, Go(p, choice))
    requires var at := s.drivers[p].at; at.Looping? || at.Applying? || at.Running?
    ensures p < |Drive(s, p, choice).drivers| && DriverSound(Drive(s, p, choice), p)
  {
    hide Concluded;
  }

  lemma {:induction false} PublishStep(s: State, p: nat, choice: Choice)
    requires p < |s.drivers| && DriverSound(s, p) && s.program == Some(p) && Enabled(s, Go(p, choice))
    requires s.drivers[p].at.Publishing?
    ensures p < |Drive(s, p, choice).drivers| && DriverSound(Drive(s, p, choice), p)
  {
  }

  lemma {:induction false} WaitStep(s: State, p: nat, choice: Choice)
    requires p < |s.drivers| && DriverSound(s, p) && s.program == Some(p) && Enabled(s, Go(p, choice))
    requires Holds(s.drivers[p].at)
    ensures p < |Drive(s, p, choice).drivers| && DriverSound(Drive(s, p, choice), p)
  {
    hide Concluded;
  }

  lemma {:induction false} EndStep(s: State, p: nat, choice: Choice)
    requires p < |s.drivers| && DriverSound(s, p) && s.program == Some(p) && Enabled(s, Go(p, choice))
    requires var at := s.drivers[p].at; at.Moving? || at.Failing? || at.Finishing?
    ensures p < |Drive(s, p, choice).drivers| && DriverSound(Drive(s, p, choice), p)
  {
  }

  lemma {:induction false} TakeKeepsSound(s: State, a: Action)
    requires Sound(s) && Enabled(s, a)
    ensures Sound(Take(s, a))
  {
    hide Sound;
    match a
    case Load(steps) => LoadKeepsSound(s, steps);
    case Interrupt => AbortKeepsSound(s);
    case Settle(activity, outcome) => CellsKeepSound(s, Take(s, a).cells);
    case Fail(activity) => CellsKeepSound(s, Take(s, a).cells);
    case Go(p, choice) => DriveKeepsSound(s, p, choice);
  }

  // Every run: any interleaving of callers, interrupters, the worker, and whatever settles activities.

  ghost predicate IsRun(states: seq<State>, actions: seq<Action>) {
    && |states| == |actions| + 1 && states[0] == IDLE
    && forall i :: 0 <= i < |actions| ==> Enabled(states[i], actions[i]) && states[i + 1] == Take(states[i], actions[i])
  }

  lemma {:induction false} EveryRunIsSound(states: seq<State>, actions: seq<Action>, i: nat)
    requires IsRun(states, actions) && i < |states|
    ensures Sound(states[i])
  {
    if i == 0 {
      assert states[0] == IDLE;
    } else {
      hide Sound, Take, Enabled;
      EveryRunIsSound(states, actions, i - 1);
      TakeKeepsSound(states[i - 1], actions[i - 1]);
    }
  }

  /** Steps run in order and at most once; `_step` never passes the end; and once the abort is set, at
      most one more command begins. */
  lemma {:induction false} StepsInOrderAtMostOnce(states: seq<State>, actions: seq<Action>, i: nat, p: nat)
    requires IsRun(states, actions) && i < |states| && p < |states[i].drivers|
    ensures var d := states[i].drivers[p];
      && |d.begun| <= d.steps
      && (forall k :: 0 <= k < |d.begun| ==> d.begun[k] == k)
      && (d.atAbort.Some? ==> |d.begun| <= d.atAbort.value + 1)
      && (states[i].program == Some(p) ==>
            states[i].step <= d.steps && (states[i].step == d.steps ==> d.at.Looping? || d.at.Failing? || d.at.Finishing?))
  {
    EveryRunIsSound(states, actions, i);
    assert DriverSound(states[i], p);
  }

  /** Each loaded program ends exactly once and in the order they were loaded; one at a time. */
  lemma {:induction false} EachEndsOnce(states: seq<State>, actions: seq<Action>, i: nat)
    requires IsRun(states, actions) && i < |states|
    ensures var s := states[i];
      && (forall k :: 0 <= k < |s.endings| ==> s.endings[k] == k)
      && |s.endings| == (if s.program.Some? then |s.drivers| - 1 else |s.drivers|)
      && (s.program.Some? ==> s.program.value + 1 == |s.drivers|)
      && (forall p :: 0 <= p < |s.drivers| ==> (s.drivers[p].at.Over? <==> p in s.endings))
      && (forall p :: 0 <= p < |s.drivers| ==> (s.drivers[p].ending.Some? <==> p in s.endings))
  {
    EveryRunIsSound(states, actions, i);
    var s := states[i];
    forall p | 0 <= p < |s.drivers| ensures s.drivers[p].at.Over? <==> p in s.endings
      ensures s.drivers[p].ending.Some? <==> p in s.endings
    {
      assert DriverSound(s, p);
      if p < |s.endings| { assert s.endings[p] == p; }
    }
  }

  /** The guards against another program having taken over never act: a driver not yet over finds its
      own program. */
  lemma {:induction false} NeverReplaced(states: seq<State>, actions: seq<Action>, i: nat, p: nat)
    requires IsRun(states, actions) && i < |states| && p < |states[i].drivers| && !states[i].drivers[p].at.Over?
    ensures states[i].program == Some(p)
  {
    EveryRunIsSound(states, actions, i);
    Current(states[i], p);
  }

  /** What each outcome means. A program ends `finished` exactly when it neither failed nor saw an
      abort: all its steps were then begun, or it was given up where its last activity went unfired. */
  lemma {:induction false} WhatEndingsMean(states: seq<State>, actions: seq<Action>, i: nat, p: nat)
    requires IsRun(states, actions) && i < |states| && p < |states[i].drivers| && states[i].drivers[p].ending.Some?
    ensures var d := states[i].drivers[p];
      && (d.ending.value == Failed <==> d.why == Raised)
      && (d.ending.value == WasInterrupted <==> d.why != Raised && d.atAbort.Some?)
      && (d.ending.value == Finished <==> d.why != Raised && d.atAbort.None?)
      && (d.ending.value == Finished ==>
            (d.why == AllDone && |d.begun| == d.steps)
            || (d.why.Unfired? && d.why.activity < |states[i].cells|
                && states[i].cells[d.why.activity].outcome in {Interrupted, Expired}))
      && (d.ending.value == Finished && |d.begun| < d.steps ==> d.why.Unfired?)
  {
    EveryRunIsSound(states, actions, i);
    assert DriverSound(states[i], p);
  }

  /** So a program is reported as finished, the rest of its steps never run, wherever a wait times out
      with nobody interrupting: two steps of its own are enough. */
  lemma {:induction false} TimedOutIsFinished(states: seq<State>, actions: seq<Action>, k: nat, p: nat, i: nat,
      a: nat)
    requires IsRun(states, actions) && k < |states| && p < |states[k].drivers| && !states[k].abort
    requires states[k].drivers[p].at == Waiting(i, a) && a < |states[k].cells| && states[k].cells[a] == Cell(Expired, false)
    ensures i < states[k].drivers[p].steps && states[k].drivers[p].begun == Upto(i + 1)
    ensures var s := states[k];
      && Enabled(s, Go(p, Plain)) && Enabled(Take(s, Go(p, Plain)), Go(p, Plain))
      && var t := Take(Take(s, Go(p, Plain)), Go(p, Plain));
         && t.drivers[p].ending == Some(Finished) && t.drivers[p].begun == s.drivers[p].begun
         && t.drivers[p].steps == s.drivers[p].steps && t.endings == s.endings + [p]
  {
    EveryRunIsSound(states, actions, k);
    Current(states[k], p);
    assert Take(states[k], Go(p, Plain)) == Leave(states[k], p, Unfired(a));
  }

  /** Where the wait ends fired, and nobody interrupts, the next step begins, or the program is done. */
  lemma {:induction false} FiredGoesOn(states: seq<State>, actions: seq<Action>, k: nat, p: nat, i: nat, a: nat)
    requires IsRun(states, actions) && k < |states| && p < |states[k].drivers| && !states[k].abort
    requires states[k].drivers[p].at == Waiting(i, a) && a < |states[k].cells| && states[k].cells[a] == Cell(Fired, false)
    ensures var s := states[k];
      && i < s.drivers[p].steps && Enabled(s, Go(p, Plain))
      && var t := Take(s, Go(p, Plain));
         && Enabled(t, Go(p, Plain))
         && var u := Take(t, Go(p, Plain));
            && Enabled(u, Go(p, Plain))
            && var v := Take(u, Go(p, Plain));
               && |v.drivers| == |s.drivers|
               && (i + 1 < s.drivers[p].steps ==> v.drivers[p].begun == s.drivers[p].begun + [i + 1])
               && (i + 1 == s.drivers[p].steps ==>
                     && v.drivers[p].ending == Some(Finished) && v.endings == s.endings + [p]
                     && v.program == None && v.activity == None && v.step == 0 && !v.abort)
  {
    EveryRunIsSound(states, actions, k);
    Current(states[k], p);
    assert Take(states[k], Go(p, Plain)) == Moved(states[k], p, Moving(i));
  }

  // A program whose activity fails, or whose command does, ends failed.

  /** The wait's activity has an error, or one is on its way out, or the program has ended failed. */
  ghost predicate Doomed(s: State, p: nat, begun: seq<nat>) {
    && p < |s.drivers| && s.drivers[p].begun == begun
    && match s.drivers[p].at
       case Waiting(_, a) => a < |s.cells| && s.cells[a].error && s.cells[a].outcome != Pending
       case Failing => true
       case Finishing => s.drivers[p].why == Raised
       case Over => s.drivers[p].ending == Some(Failed)
       case _ => false
  }

  lemma {:induction false} StaysDoomed(s: State, a: Action, p: nat, begun: seq<nat>)
    requires Sound(s) && Enabled(s, a) && Doomed(s, p, begun)
    ensures Doomed(Take(s, a), p, begun)
  {
    hide Sound, InOrder, Concluded;
    if !s.drivers[p].at.Over? { Current(s, p); }
    if a.Go? && a.p != p { OthersStand(s, a.p, a.choice, p); }
  }

  lemma {:induction false} OthersStand(s: State, q: nat, choice: Choice, p: nat)
    requires Sound(s) && Enabled(s, Go(q, choice)) && p < |s.drivers| && p != q
    ensures s.drivers[p].at.Over? && |Drive(s, q, choice).drivers| == |s.drivers| && Drive(s, q, choice).drivers[p] == s.drivers[p]
  {
    Current(s, q);
    DriveTouches(s, q, choice);
    assert DriverSound(s, p);
  }

  /** Every cell with an error has settled. */
  ghost predicate ErrorsSettled(cells: seq<Cell>) {
    forall a :: 0 <= a < |cells| && cells[a].error ==> cells[a].outcome != Pending
  }

  lemma {:induction false} TakeSettlesErrors(s: State, a: Action)
    requires Enabled(s, a) && ErrorsSettled(s.cells)
    ensures ErrorsSettled(Take(s, a).cells)
  {
    if a.Go? { DriveSettlesErrors(s, a.p, a.choice); }
  }

  lemma {:induction false} DriveSettlesErrors(s: State, p: nat, choice: Choice)
    requires Enabled(s, Go(p, choice)) && ErrorsSettled(s.cells)
    ensures ErrorsSettled(Drive(s, p, choice).cells)
  {
  }

  lemma {:induction false} ErrorsSettle(states: seq<State>, actions: seq<Action>, k: nat)
    requires IsRun(states, actions) && k < |states|
    ensures ErrorsSettled(states[k].cells)
  {
    if k > 0 {
      RunLength(states, actions);
      hide IsRun, Take, Enabled, ErrorsSettled;
      RunStep(states, actions, k - 1);
      ErrorsSettle(states, actions, k - 1);
      TakeSettlesErrors(states[k - 1], actions[k - 1]);
    }
  }

  lemma {:induction false} RunStep(states: seq<State>, actions: seq<Action>, k: nat)
    requires IsRun(states, actions) && k < |actions|
    ensures Enabled(states[k], actions[k]) && states[k + 1] == Take(states[k], actions[k])
  {
  }

  lemma {:induction false} DoomedForGood(states: seq<State>, actions: seq<Action>, k: nat, j: nat, p: nat, begun: seq<nat>)
    requires IsRun(states, actions) && k <= j < |states| && Doomed(states[k], p, begun)
    ensures Doomed(states[j], p, begun)
  {
    hide IsRun, Doomed, Take, Enabled, Sound;
    if k < j {
      RunLength(states, actions);
      DoomedForGood(states, actions, k, j - 1, p, begun);
      EveryRunIsSound(states, actions, j - 1);
      RunStep(states, actions, j - 1);
      StaysDoomed(states[j - 1], actions[j - 1], p, begun);
    }
  }

  lemma {:induction false} DoomedIsServed(s: State, p: nat, begun: seq<nat>, choice: Choice)
    requires Sound(s) && Doomed(s, p, begun)
    ensures s.drivers[p].ending.Some? ==> s.drivers[p].ending == Some(Failed)
    ensures s.drivers[p].ending.None? ==>
      && Enabled(s, Go(p, choice))
      && Rank(Take(s, Go(p, choice)).drivers[p].at) < Rank(s.drivers[p].at) <= 3
  {
    assert DriverSound(s, p);
    if !s.drivers[p].at.Over? { Current(s, p); }
  }

  /** The driver waits on an activity that has failed. */
  ghost predicate WaitFailed(s: State, p: nat) {
    && p < |s.drivers| && s.drivers[p].at.Waiting?
    && var a := s.drivers[p].at.activity; a < |s.cells| && s.cells[a].error
  }

  /** Once the activity a driver waits on has an error the program ends failed: however the run goes on no
      further command of it begins, and until it has ended its driver's next step can be taken and brings
      it nearer, three of them being enough. */
  lemma {:induction false} ActivityErrorFails(states: seq<State>, actions: seq<Action>, k: nat, j: nat, p: nat,
      choice: Choice)
    requires IsRun(states, actions) && k <= j < |states| && WaitFailed(states[k], p)
    ensures p < |states[j].drivers|
    ensures var d := states[j].drivers[p];
      && d.begun == states[k].drivers[p].begun
      && (d.ending.Some? ==> d.ending == Some(Failed))
      && (d.ending.None? ==>
            && Enabled(states[j], Go(p, choice))
            && Rank(Take(states[j], Go(p, choice)).drivers[p].at) < Rank(d.at) <= 3)
  {
    hide Take, Enabled, IsRun;
    ErrorsSettle(states, actions, k);
    DoomedForGood(states, actions, k, j, p, states[k].drivers[p].begun);
    EveryRunIsSound(states, actions, j);
    DoomedIsServed(states[j], p, states[k].drivers[p].begun, choice);
  }

  /** And so does a command that raises, or an activity that will not attach. */
  lemma {:induction false} RaiseFails(states: seq<State>, actions: seq<Action>, k: nat, j: nat, p: nat, choice: Choice)
    requires IsRun(states, actions) && k < j < |states| && actions[k] == Go(p, Raise) && p < |states[k].drivers|
    requires states[k].drivers[p].at.Running? || states[k].drivers[p].at.Entering?
    ensures p < |states[j].drivers|
    ensures var d := states[j].drivers[p];
      && d.begun == states[k].drivers[p].begun
      && (d.ending.Some? ==> d.ending == Some(Failed))
      && (d.ending.None? ==>
            && Enabled(states[j], Go(p, choice))
            && Rank(Take(states[j], Go(p, choice)).drivers[p].at) < Rank(d.at) <= 3)
  {
    hide Rank;
    RunStep(states, actions, k);
    hide IsRun;
    assert Doomed(states[k + 1], p, states[k].drivers[p].begun);
    hide Take, Enabled, Doomed;
    DoomedForGood(states, actions, k + 1, j, p, states[k].drivers[p].begun);
    EveryRunIsSound(states, actions, j);
    DoomedIsServed(states[j], p, states[k].drivers[p].begun, choice);
  }

  /** A program that ended finished, or interrupted, was never at a wait whose activity had failed. */
  lemma {:induction false} FinishedNeverFailed(states: seq<State>, actions: seq<Action>, j: nat, p: nat)
    requires IsRun(states, actions) && j < |states| && p < |states[j].drivers|
    requires states[j].drivers[p].ending.Some? && states[j].drivers[p].ending != Some(Failed)
    ensures forall k :: 0 <= k <= j ==> !WaitFailed(states[k], p)
  {
    hide IsRun, Take, Enabled, WaitFailed;
    forall k | 0 <= k <= j ensures !WaitFailed(states[k], p) {
      if WaitFailed(states[k], p) { ActivityErrorFails(states, actions, k, j, p, Plain); }
    }
  }

  /** Its driver's own step at a wait whose activity failed, or one that raises. */
  ghost predicate Breaks(s: State, a: Action, p: nat) {
    && a.Go? && a.p == p && p < |s.drivers|
    && (WaitFailed(s, p) || (a.choice == Raise && (s.drivers[p].at.Running? || s.drivers[p].at.Entering?)))
  }

  ghost predicate Broken(s: State, p: nat) {
    p < |s.drivers| && (s.drivers[p].at.Failing? || s.drivers[p].why == Raised)
  }

  lemma {:induction false} BreaksOnce(s: State, a: Action, p: nat)
    requires Sound(s) && Enabled(s, a) && Broken(Take(s, a), p)
    ensures Broken(s, p) || Breaks(s, a, p)
  {
    hide Sound, Drive;
    if a.Go? {
      Current(s, a.p);
      if a.p == p {
        DriveBreaks(s, p, a.choice);
      } else if p < |s.drivers| {
        OthersStand(s, a.p, a.choice, p);
      } else {
        DriveTouches(s, a.p, a.choice);
      }
    }
  }

  lemma {:induction false} DriveBreaks(s: State, p: nat, choice: Choice)
    requires Enabled(s, Go(p, choice)) && Broken(Drive(s, p, choice), p)
    ensures Broken(s, p) || Breaks(s, Go(p, choice), p)
  {
  }

  lemma {:induction false} BrokenHasAReason(states: seq<State>, actions: seq<Action>, j: nat, p: nat)
    requires IsRun(states, actions) && j < |states| && Broken(states[j], p)
    ensures exists k :: 0 <= k < j && Breaks(states[k], actions[k], p)
  {
    RunLength(states, actions);
    if j > 0 {
      hide IsRun, Take, Enabled, Sound, Broken, Breaks;
      EveryRunIsSound(states, actions, j - 1);
      RunStep(states, actions, j - 1);
      BreaksOnce(states[j - 1], actions[j - 1], p);
      if Broken(states[j - 1], p) {
        BrokenHasAReason(states, actions, j - 1, p);
      } else {
        assert 0 <= j - 1 < j && Breaks(states[j - 1], actions[j - 1], p);
      }
    }
  }

  /** And nothing else ends a program failed. */
  lemma {:induction false} FailureHasAReason(states: seq<State>, actions: seq<Action>, j: nat, p: nat)
    requires IsRun(states, actions) && j < |states| && p < |states[j].drivers|
    requires states[j].drivers[p].ending == Some(Failed)
    ensures exists k :: 0 <= k < j && Breaks(states[k], actions[k], p)
  {
    hide Breaks;
    WhatEndingsMean(states, actions, j, p);
    BrokenHasAReason(states, actions, j, p);
  }

  // Both happen.

  /** A program of two steps up to the wait for its first step's activity: where its driver is, what has
      begun, what is shown, and that activity. */
  function Shown(at: Place, begun: seq<nat>, activity: Option<nat>, cells: seq<Cell>): State {
    State(Some(0), activity, 0, false, false, [Driver(2, at, begun, None, Going, None)], cells, [])
  }

  function Timeline(k: nat): State {
    var pending := Cell(Pending, false);
    if k == 0 then IDLE
    else if k == 1 then Shown(Looping, [], None, [])
    else if k == 2 then Shown(Applying(0, false), [], None, [])
    else if k == 3 then Shown(Running(0, false), [0], None, [])
    else if k == 4 then Shown(Publishing(0, false, Some(0)), [0], None, [pending])
    else if k == 5 then Shown(Spawning(0), [0], Some(0), [pending])
    else if k == 6 then Shown(Checking(0, 0), [0], Some(0), [pending])
    else if k == 7 then Shown(Entering(0, 0), [0], Some(0), [pending])
    else Shown(Waiting(0, 0), [0], Some(0), [pending])
  }

  function Happens(k: nat): Action {
    if k == 0 then Load(2) else if k == 3 then Go(0, Make) else Go(0, Plain)
  }

  ghost predicate Follows(k: nat) {
    Enabled(Timeline(k), Happens(k)) && Timeline(k + 1) == Take(Timeline(k), Happens(k))
  }

  lemma {:induction false} Loads()
    ensures Follows(0) && Follows(1)
  {
    assert IDLE.drivers + [Driver(2, Looping, [], None, Going, None)] == [Driver(2, Looping, [], None, Going, None)];
  }

  lemma {:induction false} Begins()
    ensures Follows(2) && Follows(3)
  {
    assert Timeline(2).drivers[0].begun + [0] == [0];
    assert Timeline(3).cells + [Cell(Pending, false)] == [Cell(Pending, false)];
  }

  lemma {:induction false} Shows()
    ensures Follows(4) && Follows(5)
  {
  }

  lemma {:induction false} Waits()
    ensures Follows(6) && Follows(7)
  {
  }

  lemma {:induction false} WaitingRun() returns (states: seq<State>, actions: seq<Action>)
    ensures IsRun(states, actions) && Interrupt !in actions
    ensures states[|actions|] == Shown(Waiting(0, 0), [0], Some(0), [Cell(Pending, false)])
  {
    hide Take, Enabled, Follows, IsRun;
    states := seq(9, k requires 0 <= k < 9 => Timeline(k));
    actions := seq(8, k requires 0 <= k < 8 => Happens(k));
    forall k: nat | k < 8 ensures Follows(k) {
      if k < 2 { Loads(); } else if k < 4 { Begins(); } else if k < 6 { Shows(); } else { Waits(); }
    }
    FollowsOn(states, actions);
  }

  lemma {:induction false} FollowsOn(states: seq<State>, actions: seq<Action>)
    requires |states| == |actions| + 1 && Timeline(0) == IDLE
    requires forall i: nat :: i < |states| ==> states[i] == Timeline(i)
    requires forall i: nat :: i < |actions| ==> actions[i] == Happens(i)
    requires forall i: nat :: i < |actions| ==> Follows(i)
    ensures IsRun(states, actions)
  {
    hide Take, Enabled, Timeline, Happens;
    forall i | 0 <= i < |actions|
      ensures Enabled(states[i], actions[i]) && states[i + 1] == Take(states[i], actions[i])
    {
      assert Follows(i);
    }
  }

  lemma {:induction false} GoesOn(states: seq<State>, actions: seq<Action>, a: Action)
      returns (more: seq<State>, acts: seq<Action>)
    requires IsRun(states, actions) && Enabled(states[|actions|], a) && a != Interrupt && Interrupt !in actions
    ensures IsRun(more, acts) && acts == actions + [a] && Interrupt !in acts
    ensures more[|acts|] == Take(states[|actions|], a)
  {
    hide Take, Enabled;
    more, acts := states + [Take(states[|actions|], a)], actions + [a];
  }

  /** From idle, two steps loaded, nobody interrupting: the first step's wait times out, the second never
      begins, and the program is reported as finished. */
  lemma {:induction false} TimedOutRun() returns (states: seq<State>, actions: seq<Action>)
    ensures IsRun(states, actions) && Interrupt !in actions
    ensures var s := states[|states| - 1];
      && s.program == None && s.endings == [0] && |s.drivers| == 1
      && s.drivers[0].ending == Some(Finished) && s.drivers[0].steps == 2 && s.drivers[0].begun == [0]
  {
    hide IsRun;
    states, actions := WaitingRun();
    states, actions := GoesOn(states, actions, Settle(0, Expired));
    states, actions := GoesOn(states, actions, Go(0, Plain));
    states, actions := GoesOn(states, actions, Go(0, Plain));
    RunLength(states, actions);
  }

  /** And the same program whose activity fails instead is reported as failed. */
  lemma {:induction false} FailedRun() returns (states: seq<State>, actions: seq<Action>)
    ensures IsRun(states, actions) && Interrupt !in actions
    ensures var s := states[|states| - 1];
      && s.program == None && s.endings == [0] && |s.drivers| == 1
      && s.drivers[0].ending == Some(Failed) && s.drivers[0].steps == 2 && s.drivers[0].begun == [0]
  {
    hide IsRun;
    states, actions := WaitingRun();
    states, actions := GoesOn(states, actions, Fail(0));
    states, actions := GoesOn(states, actions, Go(0, Plain));
    states, actions := GoesOn(states, actions, Go(0, Plain));
    states, actions := GoesOn(states, actions, Go(0, Plain));
    RunLength(states, actions);
  }

  lemma {:induction false} RunLength(states: seq<State>, actions: seq<Action>)
    requires IsRun(states, actions)
    ensures |states| == |actions| + 1
  {
  }

  // After an abort the driver comes to an end by itself.

  /** How many steps a driver has left once it may begin nothing more. */
  function Rank(at: Place): nat {
    match at
    case Applying(_, _) => 9
    case Running(_, _) => 8
    case Publishing(_, _, _) => 7
    case Spawning(_) => 6
    case Checking(_, _) => 5
    case Entering(_, _) => 4
    case Waiting(_, _) => 3
    case Looping => 2
    case Moving(_) => 2
    case Failing => 2
    case Finishing => 1
    case Over => 0
  }

  /** With the abort set, what is waited on has settled, so the driver is never held up, and at most
      nine of its own steps bring it to an end: `interrupt` can wait for it. */
  lemma {:induction false} UnwindsAfterAbort(states: seq<State>, actions: seq<Action>, i: nat, p: nat, choice: Choice)
    requires IsRun(states, actions) && i < |states| && states[i].program == Some(p) && states[i].abort
    ensures p < |states[i].drivers| && Enabled(states[i], Go(p, choice))
    ensures var t := Take(states[i], Go(p, choice));
      && Rank(t.drivers[p].at) < Rank(states[i].drivers[p].at) <= 9
      && (t.drivers[p].at.Over? || t.abort)
  {
    EveryRunIsSound(states, actions, i);
    assert DriverSound(states[i], p);
  }

  // The code, updating its fields in place, against the regions above.

  class Programmer {
    var program: Option<nat>
    var activity: Option<nat>
    var step: nat
    var abort: bool
    var error: bool
    ghost var drivers: seq<Driver>
    ghost var cells: seq<Cell>
    ghost var endings: seq<nat>

    constructor ()
      ensures View() == IDLE
    {
      program, activity, step, abort, error := None, None, 0, false, false;
      drivers, cells, endings := [], [], [];
    }

    ghost function View(): State
      reads this
    {
      State(program, activity, step, abort, error, drivers, cells, endings)
    }

    /** Running already is the one error; `id` is the program's identity. */
    method Load(steps: nat, id: nat) returns (ok: bool)
      requires steps > 0 && id == |drivers|
      modifies this
      ensures View() == LoadProgram(old(View()), steps) && ok == old(program.None?)
    {
      if program.Some? { return false; }
      program, step, abort, activity, error := Some(id), 0, false, None, false;
      drivers := drivers + [Driver(steps, Looping, [], None, Going, None)];
      return true;
    }

    method RequestInterrupt()
      modifies this
      ensures View() == RequestAbort(old(View()))
    {
      abort := true;
      if activity.Some? { cells := Silenced(cells, activity); }
      drivers := RequestAbort(old(View())).drivers;
    }

    ghost method Place(p: nat, at: Place)
      requires p < |drivers|
      modifies this`drivers
      ensures View() == Moved(old(View()), p, at)
    {
      drivers := drivers[p := drivers[p].(at := at)];
    }

    ghost method Stop(p: nat, why: Why)
      requires p < |drivers|
      modifies this`drivers
      ensures View() == Leave(old(View()), p, why)
    {
      drivers := drivers[p := drivers[p].(at := Finishing, why := why)];
    }

    /** The condition of the loop in `_apply_atomics`. */
    method Head(ghost p: nat, steps: nat) returns (go: bool)
      requires p < |drivers| && drivers[p].steps == steps
      modifies this
      ensures View() == LoopHead(old(View()), p) && go == (drivers[p].at.Applying?)
    {
      go := step < steps && !abort;
      if go { Place(p, Applying(step, false)); } else { Stop(p, if step >= steps then AllDone else SawAbort); }
    }

    /** The end of `_apply`, and, on the caller's thread, the `_step += 1` that follows. */
    method Published(ghost p: nat, i: nat, onWorker: bool, made: Option<nat>)
      requires p < |drivers|
      modifies this
      ensures View() == Publish(old(View()), p, i, onWorker, made)
    {
      activity := made;
      if abort && made.Some? { cells := Silenced(cells, made); }
      if made.None? && !onWorker { step := step + 1; }
      Place(p, match made
               case Some(a) => if onWorker then Checking(i, a) else Spawning(a)
               case None => if onWorker then Moving(i) else Looping);
    }

    method Next(p: nat, i: nat, steps: nat) returns (go: bool)
      requires p < |drivers| && drivers[p].steps == steps
      modifies this
      ensures View() == MoveOn(old(View()), p, i) && go == (drivers[p].at.Applying?)
    {
      go := !(abort || program != Some(p) || i + 1 >= steps);
      if go {
        step := i + 1;
        Place(p, Applying(i + 1, true));
      } else {
        Stop(p, if i + 1 >= steps then AllDone else SawAbort);
      }
    }

    method End(p: nat) returns (ending: Option<Ending>)
      requires p < |drivers|
      modifies this
      ensures View() == Finish(old(View()), p)
      ensures ending.Some? ==> drivers[p].ending == ending && endings == old(endings) + [p]
    {
      if program != Some(p) {
        Place(p, Over);
        return None;
      }
      ending := Some(if error then Failed else if abort then WasInterrupted else Finished);
      program, activity, step, abort := None, None, 0, false;
      drivers := drivers[p := drivers[p].(at := Over, ending := ending)];
      endings := endings + [p];
    }
  }
}
