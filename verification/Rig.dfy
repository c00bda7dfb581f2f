/** Delivering samples (`engine/src/flyball/rig/rig.py`): note, observers, controllers, one commit for
    each touched device, the recorder, and then whatever was pushed meanwhile.

    What a controller's step and a device's commit do is a script, each controller and each device
    consuming its own acts in order: what they push, which devices they put a demand on, and where
    they raise, if they do. A script is finite; past its end nothing more is pushed. */
module Rig {
  import opened Options

  datatype Sample = Sample(id: nat, time: int, signals: seq<nat>)

  /** Who hears what: fixed while samples are delivered. */
  datatype Wiring = Wiring(
    observers: nat -> seq<nat>, listeners: Sample -> seq<nat>, controller: nat -> Option<nat>,
    committable: set<nat>, blocking: set<nat>)

  /** After how many of its demands and pushes a step raises: a law, before any. */
  datatype Cut = Cut(demands: nat, pushes: nat)

  datatype StepAct = StepAct(controller: nat, demands: seq<nat>, pushes: seq<Sample>, raises: Option<Cut>)

  datatype CommitAct = CommitAct(device: nat, pushes: seq<Sample>, raises: bool)

  datatype Event = StepFailed(controller: nat) | StepRecovered(controller: nat)

  /** One delivery, as it went. */
  datatype Batch = Batch(samples: seq<Sample>, steps: seq<nat>, taken: seq<StepAct>, commits: seq<nat>,
                         handed: seq<nat>, pushes: seq<Sample>, recorded: bool)

  datatype State = State(
    pushed: seq<Sample>, failing: set<nat>, events: seq<Event>, accepted: seq<Sample>, noted: seq<Sample>,
    batches: seq<Batch>, steps: seq<StepAct>, commits: seq<CommitAct>)

  // What a delivery touches, in the order it does.

  function Touch(touched: seq<nat>, devices: seq<nat>): seq<nat>
    decreases |devices|
  {
    if devices == [] then touched
    else Touch(if devices[0] in touched then touched else touched + [devices[0]], devices[1..])
  }

  function Observed(w: Wiring, signals: seq<nat>, touched: seq<nat>): seq<nat>
    decreases |signals|
  {
    if signals == [] then touched else Observed(w, signals[1..], Touch(touched, w.observers(signals[0])))
  }

  function Heard(w: Wiring, samples: seq<Sample>, touched: seq<nat>): seq<nat>
    decreases |samples|
  {
    if samples == [] then touched
    else Heard(w, samples[1..], Touch(Observed(w, samples[0].signals, touched), w.listeners(samples[0])))
  }

  function SignalTicks(w: Wiring, signals: seq<nat>): seq<nat> {
    if signals == [] then []
    else (match w.controller(signals[0]) case Some(c) => [c] case None => []) + SignalTicks(w, signals[1..])
  }

  function Ticks(w: Wiring, samples: seq<Sample>): seq<nat> {
    if samples == [] then [] else SignalTicks(w, samples[0].signals) + Ticks(w, samples[1..])
  }

  // One delivery.

  /** `on_samples` from inside a delivery: known at once, delivered next. */
  function Push(r: State, samples: seq<Sample>): State {
    r.(pushed := r.pushed + samples, accepted := r.accepted + samples, noted := r.noted + samples)
  }

  function UpTo<T>(s: seq<T>, n: nat): seq<T> {
    if n < |s| then s[..n] else s
  }

  /** The demands a step has made when it is over, or when it raises. */
  function Made(act: StepAct): seq<nat> {
    match act.raises
    case Some(cut) => UpTo(act.demands, cut.demands)
    case None => act.demands
  }

  function Sent(act: StepAct): seq<Sample> {
    match act.raises
    case Some(cut) => UpTo(act.pushes, cut.pushes)
    case None => act.pushes
  }

  function NextStep(steps: seq<StepAct>, controller: nat): (act: StepAct)
    ensures act.controller == controller
  {
    if steps == [] then StepAct(controller, [], [], None)
    else if steps[0].controller == controller then steps[0]
    else NextStep(steps[1..], controller)
  }

  function AfterStep(steps: seq<StepAct>, controller: nat): (rest: seq<StepAct>)
    ensures |rest| <= |steps| && (Sent(NextStep(steps, controller)) != [] ==> |rest| < |steps|)
  {
    if steps == [] then []
    else if steps[0].controller == controller then steps[1..]
    else [steps[0]] + AfterStep(steps[1..], controller)
  }

  function NextCommit(commits: seq<CommitAct>, device: nat): CommitAct {
    if commits == [] then CommitAct(device, [], false)
    else if commits[0].device == device then commits[0]
    else NextCommit(commits[1..], device)
  }

  function AfterCommit(commits: seq<CommitAct>, device: nat): (rest: seq<CommitAct>)
    ensures |rest| <= |commits| && (NextCommit(commits, device).pushes != [] ==> |rest| < |commits|)
  {
    if commits == [] then []
    else if commits[0].device == device then commits[1..]
    else [commits[0]] + AfterCommit(commits[1..], device)
  }

  function Judged(r: State, controller: nat, raises: bool): State {
    if raises && controller !in r.failing then
      r.(failing := r.failing + {controller}, events := r.events + [StepFailed(controller)])
    else if !raises && controller in r.failing then
      r.(failing := r.failing - {controller}, events := r.events + [StepRecovered(controller)])
    else r
  }

  function StepOne(r: State, controller: nat): State {
    var act := NextStep(r.steps, controller);
    Judged(Push(r.(steps := AfterStep(r.steps, controller)), Sent(act)), controller, act.raises.Some?)
  }

  datatype Stepped = Stepped(rig: State, touched: seq<nat>, taken: seq<StepAct>)

  function StepAll(r: State, ticks: seq<nat>, touched: seq<nat>): Stepped
    decreases |ticks|
  {
    if ticks == [] then Stepped(r, touched, [])
    else
      var act := NextStep(r.steps, ticks[0]);
      var rest := StepAll(StepOne(r, ticks[0]), ticks[1..], Touch(touched, Made(act)));
      rest.(taken := [act] + rest.taken)
  }

  datatype Committed = Committed(rig: State, done: seq<nat>, handed: seq<nat>, raised: bool)

  function CommitAll(w: Wiring, r: State, devices: seq<nat>): Committed
    decreases |devices|
  {
    if devices == [] then Committed(r, [], [], false)
    else if devices[0] !in w.committable then CommitAll(w, r, devices[1..])
    else if devices[0] in w.blocking then
      var rest := CommitAll(w, r, devices[1..]);
      rest.(handed := [devices[0]] + rest.handed)
    else
      var act := NextCommit(r.commits, devices[0]);
      var next := Push(r.(commits := AfterCommit(r.commits, devices[0])), act.pushes);
      if act.raises then Committed(next, [devices[0]], [], true)
      else
        var rest := CommitAll(w, next, devices[1..]);
        rest.(done := [devices[0]] + rest.done)
  }

  datatype Delivery = Delivery(rig: State, raised: bool)

  function Deliver(w: Wiring, r: State, samples: seq<Sample>, noted: bool): Delivery {
    var known := if noted then r else r.(noted := r.noted + samples);
    var stepped := StepAll(known, Ticks(w, samples), Heard(w, samples, []));
    var end := CommitAll(w, stepped.rig, stepped.touched);
    var pushes := if |r.pushed| <= |end.rig.pushed| then end.rig.pushed[|r.pushed|..] else [];
    var batch := Batch(samples, Ticks(w, samples), stepped.taken, end.done, end.handed, pushes, !end.raised);
    Delivery(end.rig.(batches := end.rig.batches + [batch]), end.raised)
  }

  lemma {:induction false} StepsOnlyPush(r: State, ticks: seq<nat>, touched: seq<nat>)
    ensures var r' := StepAll(r, ticks, touched).rig;
      && r.pushed <= r'.pushed
      && r'.accepted == r.accepted + r'.pushed[|r.pushed|..] && r'.noted == r.noted + r'.pushed[|r.pushed|..]
      && r'.batches == r.batches && r'.commits == r.commits && |r'.steps| <= |r.steps|
      && (r'.pushed != r.pushed ==> |r'.steps| < |r.steps|)
    decreases |ticks|
  {
    if ticks == [] {
      assert r.accepted + [] == r.accepted && r.noted + [] == r.noted;
    } else {
      var next, act := StepOne(r, ticks[0]), NextStep(r.steps, ticks[0]);
      StepsOnlyPush(next, ticks[1..], Touch(touched, Made(act)));
      var r' := StepAll(next, ticks[1..], Touch(touched, Made(act))).rig;
      Onward(r.pushed, Sent(act), r'.pushed, r.accepted);
      Onward(r.pushed, Sent(act), r'.pushed, r.noted);
    }
  }

  lemma {:induction false} Onward(queue: seq<Sample>, more: seq<Sample>, later: seq<Sample>, log: seq<Sample>)
    requires queue + more <= later
    ensures queue <= later && (log + more) + later[|queue + more|..] == log + later[|queue|..]
  {
  }

  lemma {:induction false} CommitsOnlyPush(w: Wiring, r: State, devices: seq<nat>)
    ensures var r' := CommitAll(w, r, devices).rig;
      && r.pushed <= r'.pushed
      && r'.accepted == r.accepted + r'.pushed[|r.pushed|..] && r'.noted == r.noted + r'.pushed[|r.pushed|..]
      && r'.batches == r.batches && r'.steps == r.steps && r'.failing == r.failing && r'.events == r.events
      && |r'.commits| <= |r.commits|
      && (r'.pushed != r.pushed ==> |r'.commits| < |r.commits|)
    decreases |devices|
  {
    assert r.accepted + [] == r.accepted && r.noted + [] == r.noted;
    if devices == [] {
    } else if devices[0] !in w.committable || devices[0] in w.blocking {
      CommitsOnlyPush(w, r, devices[1..]);
    } else {
      var act := NextCommit(r.commits, devices[0]);
      var next := Push(r.(commits := AfterCommit(r.commits, devices[0])), act.pushes);
      CommitsOnlyPush(w, next, devices[1..]);
      var r' := CommitAll(w, r, devices).rig;
      Onward(r.pushed, act.pushes, r'.pushed, r.accepted);
      Onward(r.pushed, act.pushes, r'.pushed, r.noted);
    }
  }

  /** A delivery delivers its own samples and nothing else; what is pushed meanwhile is accepted, noted
      and queued, in that order. */
  lemma {:induction false} DeliveryQueues(w: Wiring, r: State, samples: seq<Sample>, noted: bool)
    ensures var r' := Deliver(w, r, samples, noted).rig;
      && |r'.batches| == |r.batches| + 1 && r.batches <= r'.batches
      && var batch := r'.batches[|r.batches|];
         && batch.samples == samples && batch.steps == Ticks(w, samples)
         && r'.pushed == r.pushed + batch.pushes
         && r'.accepted == r.accepted + batch.pushes
         && r'.noted == r.noted + (if noted then [] else samples) + batch.pushes
         && |r'.steps| <= |r.steps| && |r'.commits| <= |r.commits|
         && (batch.pushes != [] ==> |r'.steps| + |r'.commits| < |r.steps| + |r.commits|)
  {
    hide StepAll, CommitAll, Heard, Ticks;
    var known := if noted then r else r.(noted := r.noted + samples);
    StepsOnlyPush(known, Ticks(w, samples), Heard(w, samples, []));
    var stepped := StepAll(known, Ticks(w, samples), Heard(w, samples, []));
    CommitsOnlyPush(w, stepped.rig, stepped.touched);
    var end := CommitAll(w, stepped.rig, stepped.touched).rig;
    var first := stepped.rig.pushed[|r.pushed|..];
    assert stepped.rig.pushed == r.pushed + first;
    Onward(r.pushed, first, end.pushed, r.accepted);
    Onward(r.pushed, first, end.pushed, known.noted);
    assert end.pushed == r.pushed + end.pushed[|r.pushed|..];
    assert r.noted + [] == r.noted;
  }

  // The transaction: a delivery, and then what was pushed, until nothing is left.

  function Flush(w: Wiring, r: State): Delivery
    decreases |r.steps| + |r.commits|, |r.pushed|
  {
    if r.pushed == [] then Delivery(r, false)
    else
      var emptied := r.(pushed := []);
      DeliveryQueues(w, emptied, r.pushed, true);
      var first := Deliver(w, emptied, r.pushed, true);
      if first.raised then first else Flush(w, first.rig)
  }

  datatype Reply = Fine | Refused | Propagated

  /** From outside a delivery. */
  function Outside(w: Wiring, r: State, samples: seq<Sample>): (State, Reply) {
    if exists s :: s in samples && s.signals == [] then (r, Refused)
    else if samples == [] then (r, Fine)
    else
      var first := Deliver(w, r.(accepted := r.accepted + samples), samples, false);
      if first.raised then (first.rig, Propagated)
      else
        var all := Flush(w, first.rig);
        (all.rig, if all.raised then Propagated else Fine)
  }

  /** A demand on a device outside a delivery: its commit, and what that pushed. */
  function Demand(w: Wiring, r: State, device: nat): (State, Reply) {
    var end := CommitAll(w, r, [device]);
    if end.raised then (end.rig, Propagated)
    else
      var all := Flush(w, end.rig);
      (all.rig, if all.raised then Propagated else Fine)
  }

  /** A blocking device's writer reports: the readbacks it filled in, and what they bring. */
  function Written(w: Wiring, r: State, readbacks: seq<Sample>): (State, Reply) {
    var all := Flush(w, Push(r, readbacks));
    (all.rig, if all.raised then Propagated else Fine)
  }

  datatype Call = Samples(samples: seq<Sample>) | Demanded(device: nat) | Readback(readbacks: seq<Sample>)

  function Do(w: Wiring, r: State, call: Call): (State, Reply) {
    match call
    case Samples(samples) => Outside(w, r, samples)
    case Demanded(device) => Demand(w, r, device)
    case Readback(readbacks) => Written(w, r, readbacks)
  }

  // Every accepted sample is delivered once, in the order accepted.

  function Delivered(batches: seq<Batch>): seq<Sample> {
    if batches == [] then [] else Delivered(batches[..|batches| - 1]) + batches[|batches| - 1].samples
  }

  ghost predicate InOrder(r: State) {
    r.accepted == Delivered(r.batches) + r.pushed
  }

  /** Nothing lost, nothing twice; and known to the router as soon as accepted. */
  ghost predicate Conserved(r: State) {
    && r.noted == r.accepted
    && multiset(r.accepted) == multiset(Delivered(r.batches)) + multiset(r.pushed)
  }

  lemma {:induction false} DeliverKeepsAll(w: Wiring, r: State, samples: seq<Sample>, noted: bool)
    requires multiset(r.accepted) == multiset(Delivered(r.batches)) + multiset(samples) + multiset(r.pushed)
    requires r.accepted == r.noted + (if noted then [] else samples)
    ensures Conserved(Deliver(w, r, samples, noted).rig)
    ensures r.pushed == [] && r.accepted == Delivered(r.batches) + samples ==> InOrder(Deliver(w, r, samples, noted).rig)
  {
    hide Deliver, Delivered;
    DeliveryQueues(w, r, samples, noted);
    var r' := Deliver(w, r, samples, noted).rig;
    var batch := r'.batches[|r.batches|];
    DeliveredMore(r.batches, r'.batches);
    QueueCounts(r.accepted, Delivered(r.batches), samples, r.pushed, batch.pushes);
    assert r'.noted == (r.noted + (if noted then [] else samples)) + batch.pushes;
    if r.pushed == [] { assert r'.pushed == batch.pushes; }
  }

  lemma {:induction false} DeliveredMore(batches: seq<Batch>, more: seq<Batch>)
    requires batches <= more && |more| == |batches| + 1
    ensures Delivered(more) == Delivered(batches) + more[|batches|].samples
  {
    assert more[..|more| - 1] == batches;
  }

  lemma {:induction false} QueueCounts(accepted: seq<Sample>, delivered: seq<Sample>, samples: seq<Sample>,
      queue: seq<Sample>, pushes: seq<Sample>)
    requires multiset(accepted) == multiset(delivered) + multiset(samples) + multiset(queue)
    ensures multiset(accepted + pushes) == multiset(delivered + samples) + multiset(queue + pushes)
  {
  }

  lemma {:induction false} FlushKeepsAll(w: Wiring, r: State)
    requires Conserved(r)
    ensures Conserved(Flush(w, r).rig) && (InOrder(r) ==> InOrder(Flush(w, r).rig))
    ensures !Flush(w, r).raised ==> Flush(w, r).rig.pushed == []
    decreases |r.steps| + |r.commits|, |r.pushed|
  {
    hide Deliver, Delivered;
    if r.pushed != [] {
      var emptied := r.(pushed := []);
      DeliveryQueues(w, emptied, r.pushed, true);
      assert r.noted + [] == r.noted;
      DeliverKeepsAll(w, emptied, r.pushed, true);
      var first := Deliver(w, emptied, r.pushed, true);
      if !first.raised { FlushKeepsAll(w, first.rig); }
    }
  }

  lemma {:induction false} PushKeepsAll(r: State, samples: seq<Sample>)
    requires Conserved(r)
    ensures Conserved(Push(r, samples)) && (InOrder(r) ==> InOrder(Push(r, samples)))
  {
  }

  lemma {:induction false} SamplesKeepAll(w: Wiring, r: State, samples: seq<Sample>)
    requires Conserved(r)
    ensures Kept(r, Outside(w, r, samples).0, Outside(w, r, samples).1, r.pushed == [] || samples != [])
  {
    hide Deliver, Delivered, Flush;
    var taken := r.(accepted := r.accepted + samples);
    assert Delivered(r.batches) + [] == Delivered(r.batches);
    DeliverKeepsAll(w, taken, samples, false);
    FlushKeepsAll(w, Deliver(w, taken, samples, false).rig);
  }

  lemma {:induction false} DemandKeepsAll(w: Wiring, r: State, device: nat)
    requires Conserved(r)
    ensures Kept(r, Demand(w, r, device).0, Demand(w, r, device).1, true)
  {
    hide Delivered, Flush, CommitAll;
    CommitsOnlyPush(w, r, [device]);
    var end := CommitAll(w, r, [device]).rig;
    var more := end.pushed[|r.pushed|..];
    assert end.pushed == r.pushed + more;
    PushKeepsAll(r, more);
    assert Delivered(end.batches) == Delivered(r.batches);
    FlushKeepsAll(w, end);
  }

  ghost predicate Kept(r: State, r': State, reply: Reply, emptied: bool) {
    && Conserved(r')
    && (InOrder(r) && r.pushed == [] ==> InOrder(r'))
    && (reply == Fine && emptied ==> r'.pushed == [])
    && (reply == Refused ==> r' == r)
  }

  /** Whatever the call, and whether or not a commit raises, no sample is lost or delivered twice. One
      that finds nothing queued keeps the order, and one that raises nothing leaves nothing queued. */
  lemma {:induction false} CallKeepsAll(w: Wiring, r: State, call: Call)
    requires Conserved(r)
    ensures Kept(r, Do(w, r, call).0, Do(w, r, call).1, r.pushed == [] || call != Samples([]))
  {
    hide Outside, Demand, Flush, Delivered;
    match call
    case Samples(samples) => SamplesKeepAll(w, r, samples);
    case Demanded(device) => DemandKeepsAll(w, r, device);
    case Readback(readbacks) =>
      PushKeepsAll(r, readbacks);
      FlushKeepsAll(w, Push(r, readbacks));
  }

  ghost function After(w: Wiring, r: State, calls: seq<Call>): State {
    if calls == [] then r else Do(w, After(w, r, calls[..|calls| - 1]), calls[|calls| - 1]).0
  }

  ghost predicate NoneRaised(w: Wiring, r: State, calls: seq<Call>) {
    forall i :: 0 <= i < |calls| ==> Do(w, After(w, r, calls[..i]), calls[i]).1 != Propagated
  }

  ghost predicate Idle(r: State) {
    r.pushed == [] && r.batches == [] && r.accepted == [] && r.noted == []
  }

  /** Over any calls: nothing lost, nothing twice; and, when no commit raises, delivered is accepted,
      in order, at the end of every call. */
  lemma {:induction false} DeliveredOnceInOrder(w: Wiring, r: State, calls: seq<Call>)
    requires Idle(r)
    ensures Conserved(After(w, r, calls))
    ensures NoneRaised(w, r, calls) ==> After(w, r, calls).pushed == [] && Delivered(After(w, r, calls).batches) == After(w, r, calls).accepted
    decreases |calls|
  {
    hide Do, Delivered, NoneRaised;
    if calls == [] {
      IdleKeepsAll(r);
    } else {
      var n := |calls| - 1;
      var before, end := After(w, r, calls[..n]), After(w, r, calls);
      DeliveredOnceInOrder(w, r, calls[..n]);
      CallKeepsAll(w, before, calls[n]);
      if NoneRaised(w, r, calls) {
        NoneRaisedBefore(w, r, calls);
        assert before.accepted + [] == before.accepted;
        assert Delivered(end.batches) + [] == Delivered(end.batches);
      }
    }
  }

  lemma {:induction false} IdleKeepsAll(r: State)
    requires Idle(r)
    ensures Conserved(r) && InOrder(r) && Delivered(r.batches) == r.accepted
  {
  }

  lemma {:induction false} NoneRaisedBefore(w: Wiring, r: State, calls: seq<Call>)
    requires NoneRaised(w, r, calls) && calls != []
    ensures var n := |calls| - 1;
      NoneRaised(w, r, calls[..n]) && Do(w, After(w, r, calls[..n]), calls[n]).1 != Propagated
  {
    hide Do, After;
    var n := |calls| - 1;
    forall i | 0 <= i < n ensures Do(w, After(w, r, calls[..n][..i]), calls[..n][i]).1 != Propagated {
      assert calls[..n][..i] == calls[..i];
    }
  }

  // What a commit that raised left queued.

  /** It comes only after the next samples. */
  lemma {:induction false} LeftBehindComesLate(w: Wiring, r: State, samples: seq<Sample>)
    requires samples != [] && (forall s :: s in samples ==> s.signals != []) && r.pushed != []
    requires Outside(w, r, samples).1 == Fine
    ensures var r' := Outside(w, r, samples).0;
      && |r'.batches| >= |r.batches| + 2 && r'.batches[|r.batches|].samples == samples
      && r.pushed <= r'.batches[|r.batches| + 1].samples
  {
    hide Deliver, Flush;
    var taken := r.(accepted := r.accepted + samples);
    DeliveryQueues(w, taken, samples, false);
    var first := Deliver(w, taken, samples, false).rig;
    FlushChains(w, first);
  }

  lemma {:induction false} FlushOrder(w: Wiring, r: State)
    ensures InOrder(Flush(w, r).rig) <==> InOrder(r)
    decreases |r.steps| + |r.commits|, |r.pushed|
  {
    hide Deliver, Delivered;
    if r.pushed != [] {
      var emptied := r.(pushed := []);
      DeliveryQueues(w, emptied, r.pushed, true);
      var first := Deliver(w, emptied, r.pushed, true);
      var pushes := first.rig.batches[|r.batches|].pushes;
      DeliveredMore(r.batches, first.rig.batches);
      assert first.rig.pushed == pushes;
      SameEnd(r.accepted, Delivered(r.batches) + r.pushed, pushes);
      if !first.raised { FlushOrder(w, first.rig); }
    }
  }

  lemma {:induction false} SameEnd<T>(a: seq<T>, b: seq<T>, end: seq<T>)
    ensures a + end == b + end <==> a == b
  {
    if a + end == b + end {
      assert a == (a + end)[..|a|] && b == (b + end)[..|b|];
    }
  }

  lemma {:induction false} SameStart<T>(start: seq<T>, a: seq<T>, b: seq<T>)
    ensures start + a == start + b <==> a == b
  {
    if start + a == start + b {
      assert a == (start + a)[|start|..] && b == (start + b)[|start|..];
    }
  }

  lemma {:induction false} FirstOrder(w: Wiring, r: State, samples: seq<Sample>)
    requires InOrder(r)
    ensures InOrder(Deliver(w, r.(accepted := r.accepted + samples), samples, false).rig)
       <==> r.pushed + samples == samples + r.pushed
  {
    hide Deliver, Delivered;
    var taken := r.(accepted := r.accepted + samples);
    DeliveryQueues(w, taken, samples, false);
    var first := Deliver(w, taken, samples, false).rig;
    var pushes, delivered := first.batches[|r.batches|].pushes, Delivered(r.batches);
    DeliveredMore(r.batches, first.batches);
    Regrouped(delivered, r.pushed, samples, pushes);
    Between(delivered, r.pushed + samples, samples + r.pushed, pushes);
  }

  /** So samples keep the order in which they are accepted exactly when they would come out the same after
      what is queued as before it: for a sample not queued already, exactly when nothing is. */
  lemma {:induction false} OrderKeptIff(w: Wiring, r: State, samples: seq<Sample>)
    requires samples != [] && (forall s :: s in samples ==> s.signals != []) && InOrder(r)
    ensures InOrder(Outside(w, r, samples).0) <==> r.pushed + samples == samples + r.pushed
    ensures samples[0] !in r.pushed ==> (InOrder(Outside(w, r, samples).0) <==> r.pushed == [])
  {
    hide Deliver, InOrder, Flush;
    FirstOrder(w, r, samples);
    FlushOrder(w, Deliver(w, r.(accepted := r.accepted + samples), samples, false).rig);
    Commute(r.pushed, samples);
  }

  lemma {:induction false} Regrouped<T>(start: seq<T>, a: seq<T>, b: seq<T>, end: seq<T>)
    ensures ((start + a) + b) + end == (start + (a + b)) + end
    ensures (start + b) + (a + end) == (start + (b + a)) + end
  {
  }

  lemma {:induction false} Between<T>(start: seq<T>, a: seq<T>, b: seq<T>, end: seq<T>)
    ensures (start + a) + end == (start + b) + end <==> a == b
  {
    SameEnd(start + a, start + b, end);
    SameStart(start, a, b);
  }

  lemma {:induction false} Commute(queue: seq<Sample>, samples: seq<Sample>)
    requires samples != []
    ensures samples[0] !in queue ==> (queue + samples == samples + queue <==> queue == [])
  {
    if queue == [] {
      assert queue + samples == samples == samples + queue;
    } else if queue + samples == samples + queue {
      assert (queue + samples)[0] == queue[0] && (samples + queue)[0] == samples[0];
    }
  }

  function OneDevice(): Wiring {
    Wiring(signal => if signal == 0 then [0] else [], _ => [], _ => None, {0}, {})
  }

  /** And it happens: a rig just built, one device whose first commit pushes its readback and raises. */
  lemma {:induction false} OrderIsLost()
    ensures var w, first, readback, next := OneDevice(), Sample(0, 0, [0]), Sample(1, 0, [1]), Sample(2, 1, [1]);
      var r := State([], {}, [], [], [], [], [], [CommitAct(0, [readback], true)]);
      var (after, reply) := Do(w, r, Samples([first]));
      && Idle(r) && reply == Propagated && InOrder(after) && after.pushed == [readback]
      && !InOrder(Do(w, after, Samples([next])).0)
  {
    var w, first, readback, next := OneDevice(), Sample(0, 0, [0]), Sample(1, 0, [1]), Sample(2, 1, [1]);
    var r := State([], {}, [], [], [], [], [], [CommitAct(0, [readback], true)]);
    var taken := r.(accepted := [first]);
    assert r.accepted + [first] == [first];
    assert Observed(w, [0], []) == [0] by {
      assert w.observers(0) == [0] && [0][1..] == [];
      assert Touch([], [0]) == [0];
    }
    assert Heard(w, [first], []) == [0] by { assert [first][1..] == []; }
    assert Ticks(w, [first]) == [] by { assert [first][1..] == [] && [0][1..] == []; }
    assert Deliver(w, taken, [first], false).raised;
    DeliveryQueues(w, taken, [first], false);
    DeliveredMore(r.batches, Do(w, r, Samples([first])).0.batches);
    OrderKeptIff(w, Do(w, r, Samples([first])).0, [next]);
  }

  /** What is queued is the next delivery, and what that pushes the one after: so what is pushed in a
      delivery is delivered only after all its commits, and before anything accepted later. */
  lemma {:induction false} FlushChains(w: Wiring, r: State)
    ensures var d := Flush(w, r);
      && r.batches <= d.rig.batches
      && (r.pushed != [] ==> |d.rig.batches| > |r.batches| && d.rig.batches[|r.batches|].samples == r.pushed)
      && (forall k :: |r.batches| <= k < |d.rig.batches| - 1 ==> d.rig.batches[k + 1].samples == d.rig.batches[k].pushes)
      && (forall k :: |r.batches| <= k < |d.rig.batches| - 1 ==> d.rig.batches[k].recorded)
      && (!d.raised && |d.rig.batches| > |r.batches| ==> d.rig.batches[|d.rig.batches| - 1].pushes == [])
    decreases |r.steps| + |r.commits|, |r.pushed|
  {
    hide Deliver;
    if r.pushed != [] {
      var emptied := r.(pushed := []);
      DeliveryQueues(w, emptied, r.pushed, true);
      RecordedUnlessRaised(w, emptied, r.pushed, true);
      var first := Deliver(w, emptied, r.pushed, true);
      assert [] + first.rig.batches[|r.batches|].pushes == first.rig.batches[|r.batches|].pushes;
      if !first.raised { FlushChains(w, first.rig); }
    }
  }

  lemma {:induction false} RecordedUnlessRaised(w: Wiring, r: State, samples: seq<Sample>, noted: bool)
    ensures var d := Deliver(w, r, samples, noted);
      |d.rig.batches| > 0 && d.rig.batches[|d.rig.batches| - 1].recorded == !d.raised
  {
  }

  // One commit for each device touched.

  ghost predicate Distinct(s: seq<nat>) {
    forall i, j :: 0 <= i < j < |s| ==> s[i] != s[j]
  }

  lemma {:induction false} TouchAdds(touched: seq<nat>, devices: seq<nat>)
    requires Distinct(touched)
    ensures var t := Touch(touched, devices);
      Distinct(t) && touched <= t && forall d :: d in t <==> d in touched || d in devices
    decreases |devices|
  {
    if devices != [] {
      TouchAdds(if devices[0] in touched then touched else touched + [devices[0]], devices[1..]);
    }
  }

  ghost predicate Observes(w: Wiring, signals: seq<nat>, d: nat) {
    exists i :: 0 <= i < |signals| && d in w.observers(signals[i])
  }

  lemma {:induction false} ObservedTouches(w: Wiring, signals: seq<nat>, touched: seq<nat>)
    requires Distinct(touched)
    ensures var t := Observed(w, signals, touched);
      Distinct(t) && touched <= t && forall d :: d in t <==> d in touched || Observes(w, signals, d)
    decreases |signals|
  {
    if signals != [] {
      TouchAdds(touched, w.observers(signals[0]));
      ObservedTouches(w, signals[1..], Touch(touched, w.observers(signals[0])));
      forall d ensures Observes(w, signals, d) <==> d in w.observers(signals[0]) || Observes(w, signals[1..], d) {
        if i :| 0 <= i < |signals[1..]| && d in w.observers(signals[1..][i]) {
          assert d in w.observers(signals[i + 1]);
        }
        if i :| 1 <= i < |signals| && d in w.observers(signals[i]) {
          assert d in w.observers(signals[1..][i - 1]);
        }
      }
    }
  }

  ghost predicate Hears(w: Wiring, samples: seq<Sample>, d: nat) {
    exists i :: 0 <= i < |samples| && (Observes(w, samples[i].signals, d) || d in w.listeners(samples[i]))
  }

  lemma {:induction false} HeardTouches(w: Wiring, samples: seq<Sample>, touched: seq<nat>)
    requires Distinct(touched)
    ensures var t := Heard(w, samples, touched);
      Distinct(t) && touched <= t && forall d :: d in t <==> d in touched || Hears(w, samples, d)
    decreases |samples|
  {
    hide Observes;
    if samples != [] {
      ObservedTouches(w, samples[0].signals, touched);
      TouchAdds(Observed(w, samples[0].signals, touched), w.listeners(samples[0]));
      HeardTouches(w, samples[1..], Touch(Observed(w, samples[0].signals, touched), w.listeners(samples[0])));
      forall d ensures Hears(w, samples, d) <==>
        Observes(w, samples[0].signals, d) || d in w.listeners(samples[0]) || Hears(w, samples[1..], d)
      {
        if i :| 0 <= i < |samples[1..]| && (Observes(w, samples[1..][i].signals, d) || d in w.listeners(samples[1..][i])) {
          assert samples[i + 1] == samples[1..][i];
        }
        if i :| 1 <= i < |samples| && (Observes(w, samples[i].signals, d) || d in w.listeners(samples[i])) {
          assert samples[i] == samples[1..][i - 1];
        }
      }
    }
  }

  /** A demand a step makes: any of them, or any before it raises. */
  ghost predicate Makes(act: StepAct, d: nat) {
    exists k :: 0 <= k < |act.demands| && act.demands[k] == d && (act.raises.None? || k < act.raises.value.demands)
  }

  lemma {:induction false} MadeExactly(act: StepAct, d: nat)
    ensures d in Made(act) <==> Makes(act, d)
  {
    if d in Made(act) {
      var k :| 0 <= k < |Made(act)| && Made(act)[k] == d;
      assert act.demands[k] == d;
    }
    if k :| 0 <= k < |act.demands| && act.demands[k] == d && (act.raises.None? || k < act.raises.value.demands) {
      assert Made(act)[k] == d;
    }
  }

  /** A demand made by one of the steps taken. */
  ghost predicate Demands(taken: seq<StepAct>, d: nat) {
    exists i :: 0 <= i < |taken| && Makes(taken[i], d)
  }

  lemma {:induction false} DemandsMore(act: StepAct, rest: seq<StepAct>, d: nat)
    ensures Demands([act] + rest, d) <==> Makes(act, d) || Demands(rest, d)
  {
    hide Makes;
    var all := [act] + rest;
    if Makes(act, d) { assert Makes(all[0], d); }
    if i :| 0 <= i < |rest| && Makes(rest[i], d) { assert Makes(all[i + 1], d); }
    if i :| 1 <= i < |all| && Makes(all[i], d) { assert Makes(rest[i - 1], d); }
  }

  lemma {:induction false} StepsTouch(r: State, ticks: seq<nat>, touched: seq<nat>)
    requires Distinct(touched)
    ensures var s := StepAll(r, ticks, touched);
      && Distinct(s.touched) && touched <= s.touched
      && forall d :: d in s.touched <==> d in touched || Demands(s.taken, d)
    decreases |ticks|
  {
    hide Demands, Made, Makes;
    if ticks == [] {
      forall d ensures !Demands([], d) { NoDemands(d); }
    } else {
      var act := NextStep(r.steps, ticks[0]);
      TouchAdds(touched, Made(act));
      StepsTouch(StepOne(r, ticks[0]), ticks[1..], Touch(touched, Made(act)));
      var rest := StepAll(StepOne(r, ticks[0]), ticks[1..], Touch(touched, Made(act))).taken;
      forall d ensures Demands([act] + rest, d) <==> d in Made(act) || Demands(rest, d) {
        DemandsMore(act, rest, d);
        MadeExactly(act, d);
      }
    }
  }

  lemma {:induction false} NoDemands(d: nat)
    ensures !Demands([], d)
  {
  }

  ghost predicate Commits(w: Wiring, d: nat) {
    d in w.committable && d !in w.blocking
  }

  lemma {:induction false} CommitsEachOnce(w: Wiring, r: State, devices: seq<nat>)
    requires Distinct(devices)
    ensures var c := CommitAll(w, r, devices);
      && Distinct(c.done)
      && (forall d :: d in c.done ==> d in devices && Commits(w, d))
      && (!c.raised ==> forall d :: d in devices && Commits(w, d) ==> d in c.done)
      && (forall i, j :: 0 <= i < j < |c.done| ==> Precedes(devices, c.done[i], c.done[j]))
      && Distinct(c.handed)
      && (forall d :: d in c.handed ==> d in devices && d in w.committable && d in w.blocking)
      && (!c.raised ==> forall d :: d in devices && d in w.committable && d in w.blocking ==> d in c.handed)
    decreases |devices|
  {
    if devices != [] {
      var act := NextCommit(r.commits, devices[0]);
      var next := Push(r.(commits := AfterCommit(r.commits, devices[0])), act.pushes);
      CommitsEachOnce(w, r, devices[1..]);
      CommitsEachOnce(w, next, devices[1..]);
      var c := CommitAll(w, r, devices);
      forall i, j | 0 <= i < j < |c.done| ensures Precedes(devices, c.done[i], c.done[j]) {
        Precedence(devices, c.done[i], c.done[j]);
        if Commits(w, devices[0]) && i == 0 {
          var rest := CommitAll(w, next, devices[1..]).done;
          assert c.done[j] == rest[j - 1] && rest[j - 1] in rest;
          var k :| 0 <= k < |devices[1..]| && devices[1..][k] == c.done[j];
          assert devices[0] == c.done[0] && devices[k + 1] == c.done[j];
        }
      }
    }
  }

  ghost predicate Precedes(s: seq<nat>, a: nat, b: nat) {
    exists i, j :: 0 <= i < j < |s| && s[i] == a && s[j] == b
  }

  lemma {:induction false} Precedence(s: seq<nat>, a: nat, b: nat)
    requires s != []
    ensures Precedes(s[1..], a, b) ==> Precedes(s, a, b)
  {
  }

  /** In one delivery, unless a commit raises, the devices that commit are exactly the committable,
      non-blocking ones that a sample reached or a step put a demand on, once each. */
  lemma {:induction false} OneCommitEach(w: Wiring, r: State, samples: seq<Sample>, noted: bool)
    ensures var d := Deliver(w, r, samples, noted);
      && |d.rig.batches| > 0
      && var batch := d.rig.batches[|d.rig.batches| - 1];
         && Distinct(batch.commits)
         && (forall x :: x in batch.commits ==> Commits(w, x) && Reached(w, batch, x))
         && (!d.raised ==> forall x :: Commits(w, x) && Reached(w, batch, x) ==> x in batch.commits)
         && Distinct(batch.handed)
         && (forall x :: x in batch.handed ==> x in w.committable && x in w.blocking && Reached(w, batch, x))
         && (!d.raised ==> forall x ::
               x in w.committable && x in w.blocking && Reached(w, batch, x) ==> x in batch.handed)
  {
    hide StepAll, CommitAll, Heard, Ticks, Hears, Demands, Commits;
    var known := if noted then r else r.(noted := r.noted + samples);
    HeardTouches(w, samples, []);
    StepsTouch(known, Ticks(w, samples), Heard(w, samples, []));
    var stepped := StepAll(known, Ticks(w, samples), Heard(w, samples, []));
    CommitsEachOnce(w, stepped.rig, stepped.touched);
  }

  ghost predicate Reached(w: Wiring, batch: Batch, d: nat) {
    Hears(w, batch.samples, d) || Demands(batch.taken, d)
  }

  // Which controllers step, and what their steps do.

  /** `ticks` are the controllers of the readings that have one, each as often as it has readings and in
      their order: `at` says which reading each is for, as sample and place in it. */
  ghost predicate StepsFor(w: Wiring, samples: seq<Sample>, ticks: seq<nat>, at: seq<(nat, nat)>) {
    && |at| == |ticks|
    && (forall k :: 0 <= k < |at| ==>
          && at[k].0 < |samples| && at[k].1 < |samples[at[k].0].signals|
          && w.controller(samples[at[k].0].signals[at[k].1]) == Some(ticks[k]))
    && (forall j, k :: 0 <= j < k < |at| ==> at[j].0 < at[k].0 || (at[j].0 == at[k].0 && at[j].1 < at[k].1))
    && (forall i: nat, n: nat :: i < |samples| && n < |samples[i].signals| && w.controller(samples[i].signals[n]).Some?
          ==> (i, n) in at)
  }

  lemma {:induction false} SignalTicksAppend(w: Wiring, signals: seq<nat>, last: nat)
    ensures SignalTicks(w, signals + [last])
         == SignalTicks(w, signals) + (match w.controller(last) case Some(c) => [c] case None => [])
  {
    if signals == [] {
      assert [] + [last] == [last];
    } else {
      assert (signals + [last])[1..] == signals[1..] + [last];
      SignalTicksAppend(w, signals[1..], last);
    }
  }

  lemma {:induction false} TicksAppend(w: Wiring, samples: seq<Sample>, last: Sample)
    ensures Ticks(w, samples + [last]) == Ticks(w, samples) + SignalTicks(w, last.signals)
  {
    hide SignalTicks;
    if samples == [] {
      assert [] + [last] == [last];
    } else {
      assert (samples + [last])[1..] == samples[1..] + [last];
      TicksAppend(w, samples[1..], last);
    }
  }

  /** The same of one sample's readings: `at` are their places. */
  ghost predicate TicksOf(w: Wiring, signals: seq<nat>, ticks: seq<nat>, at: seq<nat>) {
    && |at| == |ticks|
    && (forall k :: 0 <= k < |at| ==> at[k] < |signals| && w.controller(signals[at[k]]) == Some(ticks[k]))
    && (forall j, k :: 0 <= j < k < |at| ==> at[j] < at[k])
    && (forall n: nat :: n < |signals| && w.controller(signals[n]).Some? ==> n in at)
  }

  lemma {:induction false} SignalTicksFor(w: Wiring, signals: seq<nat>) returns (at: seq<nat>)
    ensures TicksOf(w, signals, SignalTicks(w, signals), at)
    decreases |signals|
  {
    at := [];
    if signals != [] {
      hide SignalTicks, TicksOf;
      var n := |signals| - 1;
      at := SignalTicksFor(w, signals[..n]);
      assert signals == signals[..n] + [signals[n]];
      SignalTicksAppend(w, signals[..n], signals[n]);
      OneMoreSignal(w, signals[..n], signals[n], SignalTicks(w, signals[..n]), at);
      if w.controller(signals[n]).Some? { at := at + [n]; }
    }
  }

  lemma {:induction false} OneMoreSignal(w: Wiring, signals: seq<nat>, last: nat, ticks: seq<nat>, at: seq<nat>)
    requires TicksOf(w, signals, ticks, at)
    ensures match w.controller(last)
      case Some(c) => TicksOf(w, signals + [last], ticks + [c], at + [|signals|])
      case None => TicksOf(w, signals + [last], ticks + [], at)
  {
  }

  lemma {:induction false} TicksFor(w: Wiring, samples: seq<Sample>) returns (at: seq<(nat, nat)>)
    ensures StepsFor(w, samples, Ticks(w, samples), at)
    decreases |samples|
  {
    at := [];
    if samples != [] {
      hide SignalTicks, Ticks, TicksOf, StepsFor;
      var n := |samples| - 1;
      at := TicksFor(w, samples[..n]);
      var more := SignalTicksFor(w, samples[n].signals);
      assert samples == samples[..n] + [samples[n]];
      TicksAppend(w, samples[..n], samples[n]);
      at := OneMoreSample(w, samples[..n], samples[n], Ticks(w, samples[..n]), at, SignalTicks(w, samples[n].signals), more);
    }
  }

  lemma {:induction false} OneMoreSample(w: Wiring, samples: seq<Sample>, last: Sample, ticks: seq<nat>,
      at: seq<(nat, nat)>, more: seq<nat>, places: seq<nat>) returns (all: seq<(nat, nat)>)
    requires StepsFor(w, samples, ticks, at) && TicksOf(w, last.signals, more, places)
    ensures StepsFor(w, samples + [last], ticks + more, all)
  {
    var m := |samples|;
    var late := seq(|places|, k requires 0 <= k < |places| => (m, places[k]));
    all := at + late;
    var longer := samples + [last];
    forall j | 0 <= j < |all| ensures var (i, n) := all[j];
      && i < |longer| && n < |longer[i].signals| && w.controller(longer[i].signals[n]) == Some((ticks + more)[j])
      && (j < |at| ==> i < m) && (j >= |at| ==> i == m && n == places[j - |at|])
    {
      if j < |at| { assert all[j] == at[j]; } else { assert all[j] == late[j - |at|]; }
    }
    forall j, k | 0 <= j < k < |all| ensures all[j].0 < all[k].0 || (all[j].0 == all[k].0 && all[j].1 < all[k].1) {
      if k < |at| { assert all[j] == at[j] && all[k] == at[k]; }
    }
    forall i: nat, n: nat | i < |longer| && n < |longer[i].signals| && w.controller(longer[i].signals[n]).Some?
      ensures (i, n) in all
    {
      if i == m {
        var k :| 0 <= k < |places| && places[k] == n;
        assert late[k] == (m, n);
      } else {
        assert (i, n) in at;
      }
    }
  }

  /** In one delivery a controller is stepped exactly as often as readings in it have it as theirs, in the
      order of those readings; and what each step does is that controller's own. */
  lemma {:induction false} StepsAreReadings(w: Wiring, r: State, samples: seq<Sample>, noted: bool)
    returns (at: seq<(nat, nat)>)
    ensures var r' := Deliver(w, r, samples, noted).rig;
      && |r'.batches| == |r.batches| + 1
      && var batch := r'.batches[|r.batches|];
         && batch.samples == samples && StepsFor(w, batch.samples, batch.steps, at)
         && |batch.taken| == |batch.steps|
         && forall k :: 0 <= k < |batch.steps| ==> batch.taken[k].controller == batch.steps[k]
  {
    hide StepAll, CommitAll, Heard, Ticks, StepsFor;
    DeliveryQueues(w, r, samples, noted);
    at := TicksFor(w, samples);
    StepsTaken(if noted then r else r.(noted := r.noted + samples), Ticks(w, samples), Heard(w, samples, []));
  }

  lemma {:induction false} StepsTaken(r: State, ticks: seq<nat>, touched: seq<nat>)
    ensures var taken := StepAll(r, ticks, touched).taken;
      |taken| == |ticks| && forall k :: 0 <= k < |ticks| ==> taken[k].controller == ticks[k]
    decreases |ticks|
  {
    if ticks != [] {
      StepsTaken(StepOne(r, ticks[0]), ticks[1..], Touch(touched, Made(NextStep(r.steps, ticks[0]))));
    }
  }

  // A law that raises.

  function Of(events: seq<Event>, controller: nat): seq<Event> {
    if events == [] then []
    else
      var last := events[|events| - 1];
      Of(events[..|events| - 1], controller) + if last.controller == controller then [last] else []
  }

  /** The acts of every controller but one. */
  function Others(steps: seq<StepAct>, c: nat): seq<StepAct> {
    if steps == [] then []
    else (if steps[0].controller == c then [] else [steps[0]]) + Others(steps[1..], c)
  }

  lemma {:induction false} OthersNext(steps: seq<StepAct>, c: nat, k: nat)
    ensures k != c ==> NextStep(Others(steps, c), k) == NextStep(steps, k)
    ensures Others(AfterStep(steps, k), c) == if k == c then Others(steps, c) else AfterStep(Others(steps, c), k)
    decreases |steps|
  {
    if steps != [] {
      OthersNext(steps[1..], c, k);
      var first, rest := steps[0], Others(steps[1..], c);
      if first.controller == c {
        assert Others(steps, c) == rest;
      } else {
        assert ([first] + rest)[1..] == rest;
      }
      if first.controller != k {
        assert AfterStep(steps, k)[1..] == AfterStep(steps[1..], k);
      }
    }
  }

  /** Two rigs in which all but one controller are to do the same, and are reported alike. */
  ghost predicate SameBut(r: State, q: State, c: nat) {
    && Others(r.steps, c) == Others(q.steps, c)
    && forall k :: k != c ==> ToldAlike(r, q, k)
  }

  ghost predicate ToldAlike(r: State, q: State, k: nat) {
    (k in r.failing <==> k in q.failing) && Of(r.events, k) == Of(q.events, k)
  }

  lemma {:induction false} JudgedAlike(r: State, q: State, stepped: nat, raises: bool, raisesToo: bool, k: nat)
    requires ToldAlike(r, q, k) && (stepped == k ==> raises == raisesToo)
    ensures ToldAlike(Judged(r, stepped, raises), Judged(q, stepped, raisesToo), k)
  {
    hide Of;
    JudgedTells(r, stepped, raises, k);
    JudgedTells(q, stepped, raisesToo, k);
  }

  lemma {:induction false} OfMore(events: seq<Event>, event: Event, k: nat)
    ensures Of(events + [event], k) == Of(events, k) + if event.controller == k then [event] else []
  {
    assert (events + [event])[..|events|] == events;
  }

  /** What a step adds to one controller's events. */
  lemma {:induction false} JudgedTells(r: State, stepped: nat, raises: bool, k: nat)
    ensures var j := Judged(r, stepped, raises);
      && (stepped != k ==> (k in j.failing <==> k in r.failing) && Of(j.events, k) == Of(r.events, k))
      && (stepped == k ==> (k in j.failing <==> raises))
      && (stepped == k && raises == (k in r.failing) ==> Of(j.events, k) == Of(r.events, k))
      && (stepped == k && raises != (k in r.failing) ==>
            Of(j.events, k) == Of(r.events, k) + [if raises then StepFailed(k) else StepRecovered(k)])
  {
    hide Of;
    OfMore(r.events, StepFailed(stepped), k);
    OfMore(r.events, StepRecovered(stepped), k);
    assert Of(r.events, k) + [] == Of(r.events, k);
  }

  lemma {:induction false} StepSameBut(r: State, q: State, tick: nat, c: nat)
    requires SameBut(r, q, c)
    ensures SameBut(StepOne(r, tick), StepOne(q, tick), c)
    ensures tick != c ==> NextStep(r.steps, tick) == NextStep(q.steps, tick)
  {
    hide NextStep, AfterStep, Judged, Of, Others;
    OthersNext(r.steps, c, tick);
    OthersNext(q.steps, c, tick);
    var a, b := NextStep(r.steps, tick), NextStep(q.steps, tick);
    var r', q' := r.(steps := AfterStep(r.steps, tick)), q.(steps := AfterStep(q.steps, tick));
    forall k | k != c ensures ToldAlike(StepOne(r, tick), StepOne(q, tick), k) {
      assert ToldAlike(r, q, k);
      JudgedAlike(Push(r', Sent(a)), Push(q', Sent(b)), tick, a.raises.Some?, b.raises.Some?, k);
    }
    JudgedKeepsSteps(Push(r', Sent(a)), tick, a.raises.Some?);
    JudgedKeepsSteps(Push(q', Sent(b)), tick, b.raises.Some?);
  }

  lemma {:induction false} JudgedKeepsSteps(r: State, tick: nat, raises: bool)
    ensures Judged(r, tick, raises).steps == r.steps
  {
  }

  ghost predicate TakenAlike(ticks: seq<nat>, a: seq<StepAct>, b: seq<StepAct>, c: nat) {
    |a| == |b| == |ticks| && forall i :: 0 <= i < |ticks| && ticks[i] != c ==> a[i] == b[i]
  }

  lemma {:induction false} StepsSameBut(r: State, q: State, ticks: seq<nat>, t: seq<nat>, u: seq<nat>, c: nat)
    requires SameBut(r, q, c)
    ensures var d, e := StepAll(r, ticks, t), StepAll(q, ticks, u);
      SameBut(d.rig, e.rig, c) && TakenAlike(ticks, d.taken, e.taken, c)
    decreases |ticks|
  {
    hide SameBut, StepOne, NextStep, Touch, Made;
    if ticks != [] {
      StepSameBut(r, q, ticks[0], c);
      var a, b := NextStep(r.steps, ticks[0]), NextStep(q.steps, ticks[0]);
      StepsSameBut(StepOne(r, ticks[0]), StepOne(q, ticks[0]), ticks[1..], Touch(t, Made(a)), Touch(u, Made(b)), c);
    }
  }

  lemma {:induction false} SameSteps(r: State, q: State, r': State, q': State, c: nat)
    requires SameBut(r, q, c)
    requires r'.steps == r.steps && r'.failing == r.failing && r'.events == r.events
    requires q'.steps == q.steps && q'.failing == q.failing && q'.events == q.events
    ensures SameBut(r', q', c)
  {
    forall k | k != c ensures ToldAlike(r', q', k) { assert ToldAlike(r, q, k); }
  }

  /** Whatever a controller does instead -- raise, put demands elsewhere, push -- every other one steps
      in that delivery as it would have, and is reported as it would have been. */
  lemma {:induction false} OthersUnmoved(w: Wiring, r: State, q: State, samples: seq<Sample>, noted: bool, c: nat)
    requires SameBut(r, q, c)
    ensures var d, e := Deliver(w, r, samples, noted).rig, Deliver(w, q, samples, noted).rig;
      && SameBut(d, e, c) && d.batches != [] && e.batches != []
      && var b, b' := d.batches[|d.batches| - 1], e.batches[|e.batches| - 1];
         b.samples == b'.samples && b.steps == b'.steps && TakenAlike(b.steps, b.taken, b'.taken, c)
  {
    hide StepAll, CommitAll, Heard, Ticks, SameBut, TakenAlike;
    var ticks, heard := Ticks(w, samples), Heard(w, samples, []);
    var r0 := if noted then r else r.(noted := r.noted + samples);
    var q0 := if noted then q else q.(noted := q.noted + samples);
    SameSteps(r, q, r0, q0, c);
    StepsSameBut(r0, q0, ticks, heard, heard, c);
    var a, b := StepAll(r0, ticks, heard), StepAll(q0, ticks, heard);
    CommitsOnlyPush(w, a.rig, a.touched);
    CommitsOnlyPush(w, b.rig, b.touched);
    SameSteps(a.rig, b.rig, Deliver(w, r, samples, noted).rig, Deliver(w, q, samples, noted).rig, c);
  }

  /** The same acts, but for one controller's not raising. */
  function Calmed(steps: seq<StepAct>, c: nat): (calm: seq<StepAct>)
    ensures |calm| == |steps|
  {
    seq(|steps|, i requires 0 <= i < |steps| =>
      if steps[i].controller == c then steps[i].(raises := None) else steps[i])
  }

  lemma {:induction false} CalmedNext(steps: seq<StepAct>, c: nat, k: nat)
    ensures NextStep(Calmed(steps, c), k)
         == if k == c then NextStep(steps, k).(raises := None) else NextStep(steps, k)
    ensures AfterStep(Calmed(steps, c), k) == Calmed(AfterStep(steps, k), c)
    decreases |steps|
  {
    if steps != [] {
      assert Calmed(steps, c)[1..] == Calmed(steps[1..], c);
      CalmedNext(steps[1..], c, k);
    }
  }

  lemma {:induction false} CalmedOthers(steps: seq<StepAct>, c: nat)
    ensures Others(Calmed(steps, c), c) == Others(steps, c)
    decreases |steps|
  {
    if steps != [] {
      assert Calmed(steps, c)[1..] == Calmed(steps[1..], c);
      CalmedOthers(steps[1..], c);
    }
  }

  lemma {:induction false} StepsCalmed(r: State, q: State, ticks: seq<nat>, t: seq<nat>, u: seq<nat>, c: nat)
    requires q.steps == Calmed(r.steps, c)
    ensures StepAll(q, ticks, u).taken == Calmed(StepAll(r, ticks, t).taken, c)
    ensures StepAll(q, ticks, u).rig.steps == Calmed(StepAll(r, ticks, t).rig.steps, c)
    ensures q.commits == r.commits ==> StepAll(q, ticks, u).rig.commits == StepAll(r, ticks, t).rig.commits
    decreases |ticks|
  {
    hide NextStep, AfterStep, Touch, Made, StepOne, Calmed;
    if ticks == [] {
      NoneCalmed(c);
    } else {
      CalmedNext(r.steps, c, ticks[0]);
      StepOneConsumes(r, ticks[0]);
      StepOneConsumes(q, ticks[0]);
      var a, b := NextStep(r.steps, ticks[0]), NextStep(q.steps, ticks[0]);
      StepsCalmed(StepOne(r, ticks[0]), StepOne(q, ticks[0]), ticks[1..], Touch(t, Made(a)), Touch(u, Made(b)), c);
      CalmedCons(a, StepAll(StepOne(r, ticks[0]), ticks[1..], Touch(t, Made(a))).taken, c);
    }
  }

  lemma {:induction false} NoneCalmed(c: nat)
    ensures Calmed([], c) == []
  {
  }

  lemma {:induction false} CalmedCons(act: StepAct, rest: seq<StepAct>, c: nat)
    ensures Calmed([act] + rest, c)
         == [if act.controller == c then act.(raises := None) else act] + Calmed(rest, c)
  {
  }

  lemma {:induction false} StepOneConsumes(r: State, tick: nat)
    ensures StepOne(r, tick).steps == AfterStep(r.steps, tick) && StepOne(r, tick).commits == r.commits
  {
  }

  lemma {:induction false} NextCommitKept(commits: seq<CommitAct>, done: nat, device: nat)
    requires done != device
    ensures NextCommit(AfterCommit(commits, done), device) == NextCommit(commits, device)
    decreases |commits|
  {
    if commits != [] {
      NextCommitKept(commits[1..], done, device);
      if commits[0].device != done {
        assert AfterCommit(commits, done)[1..] == AfterCommit(commits[1..], done);
      }
    }
  }

  /** A commit loop raises exactly when a device in it would. */
  ghost predicate Raiser(w: Wiring, commits: seq<CommitAct>, d: nat) {
    Commits(w, d) && NextCommit(commits, d).raises
  }

  lemma {:induction false} RaisesIff(w: Wiring, r: State, devices: seq<nat>)
    requires Distinct(devices)
    ensures CommitAll(w, r, devices).raised <==> exists d :: d in devices && Raiser(w, r.commits, d)
    decreases |devices|
  {
    hide NextCommit, AfterCommit;
    if devices != [] {
      var device, rest := devices[0], devices[1..];
      var act := NextCommit(r.commits, device);
      var next := Push(r.(commits := AfterCommit(r.commits, device)), act.pushes);
      RaisesIff(w, r, rest);
      RaisesIff(w, next, rest);
      forall d | d in rest ensures Raiser(w, next.commits, d) <==> Raiser(w, r.commits, d) {
        NextCommitKept(r.commits, device, d);
      }
      assert forall d :: d in devices <==> d == device || d in rest;
      if Commits(w, device) && !act.raises {
        assert CommitAll(w, r, devices).raised == CommitAll(w, next, rest).raised;
      } else if Commits(w, device) {
        assert device in devices && Raiser(w, r.commits, device);
      } else {
        assert CommitAll(w, r, devices).raised == CommitAll(w, r, rest).raised;
      }
    }
  }

  /** A device one of the controller's steps puts a demand on, or would have had it not raised first. */
  ghost predicate Wanted(taken: seq<StepAct>, c: nat, d: nat) {
    exists i :: 0 <= i < |taken| && taken[i].controller == c && d in taken[i].demands
  }

  lemma {:induction false} CalmedDemands(taken: seq<StepAct>, c: nat, d: nat)
    ensures Demands(Calmed(taken, c), d) <==> Demands(taken, d) || Wanted(taken, c, d)
  {
    var calm := Calmed(taken, c);
    if i :| 0 <= i < |taken| && Makes(calm[i], d) {
      if taken[i].controller == c { assert Wanted(taken, c, d); } else { assert Makes(taken[i], d); }
    }
    if i :| 0 <= i < |taken| && Makes(taken[i], d) { assert Makes(calm[i], d); }
    if i :| 0 <= i < |taken| && taken[i].controller == c && d in taken[i].demands { assert Makes(calm[i], d); }
  }

  /** A law that raises is contained. In that delivery the same samples are delivered, the same
      controllers step and every other one does what it would have; a commit raises only if it would have;
      and the devices that do not commit for it are those nothing reached but the demands it did not make. */
  lemma {:induction false} RaisingLawIsContained(w: Wiring, r: State, samples: seq<Sample>, noted: bool, c: nat)
    ensures var q := r.(steps := Calmed(r.steps, c));
      var d, e := Deliver(w, r, samples, noted), Deliver(w, q, samples, noted);
      && SameBut(d.rig, e.rig, c) && d.rig.batches != [] && e.rig.batches != []
      && var b, b' := d.rig.batches[|d.rig.batches| - 1], e.rig.batches[|e.rig.batches| - 1];
         && b.samples == b'.samples && b.steps == b'.steps
         && TakenAlike(b.steps, b.taken, b'.taken, c) && b'.taken == Calmed(b.taken, c)
         && (d.raised ==> e.raised)
         && (!e.raised ==> forall x ::
               && (x in b.commits ==> x in b'.commits)
               && (x in b'.commits && x !in b.commits <==>
                     Commits(w, x) && !Reached(w, b, x) && Wanted(b.taken, c, x)))
  {
    hide StepAll, CommitAll, Heard, Ticks, SameBut, TakenAlike, Hears, Demands, Wanted, Commits, Calmed, Raiser;
    var q := r.(steps := Calmed(r.steps, c));
    CalmedSame(r, c);
    OthersUnmoved(w, r, q, samples, noted, c);
    OneCommitEach(w, r, samples, noted);
    OneCommitEach(w, q, samples, noted);
    TakenCalmed(w, r, samples, noted, c);
    var b := Deliver(w, r, samples, noted).rig.batches[|r.batches|];
    forall x ensures Demands(Calmed(b.taken, c), x) <==> Demands(b.taken, x) || Wanted(b.taken, c, x) {
      CalmedDemands(b.taken, c, x);
    }
  }

  lemma {:induction false} CalmedSame(r: State, c: nat)
    ensures SameBut(r, r.(steps := Calmed(r.steps, c)), c)
  {
    CalmedOthers(r.steps, c);
  }

  lemma {:induction false} TakenCalmed(w: Wiring, r: State, samples: seq<Sample>, noted: bool, c: nat)
    ensures var q := r.(steps := Calmed(r.steps, c));
      var d, e := Deliver(w, r, samples, noted), Deliver(w, q, samples, noted);
      && |d.rig.batches| == |e.rig.batches| == |r.batches| + 1
      && e.rig.batches[|r.batches|].taken == Calmed(d.rig.batches[|r.batches|].taken, c)
      && e.rig.steps == Calmed(d.rig.steps, c)
      && (d.raised ==> e.raised)
  {
    hide StepAll, CommitAll, Heard, Ticks, Calmed, Demands, Wanted, Raiser;
    var q := r.(steps := Calmed(r.steps, c));
    var r0 := if noted then r else r.(noted := r.noted + samples);
    var q0 := if noted then q else q.(noted := q.noted + samples);
    var ticks, heard := Ticks(w, samples), Heard(w, samples, []);
    HeardTouches(w, samples, []);
    StepsOnlyPush(r0, ticks, heard);
    StepsOnlyPush(q0, ticks, heard);
    StepsTouch(r0, ticks, heard);
    StepsTouch(q0, ticks, heard);
    StepsCalmed(r0, q0, ticks, heard, heard, c);
    var a, b := StepAll(r0, ticks, heard), StepAll(q0, ticks, heard);
    forall d | d in a.touched ensures d in b.touched { CalmedDemands(a.taken, c, d); }
    CommitsOnlyPush(w, a.rig, a.touched);
    CommitsOnlyPush(w, b.rig, b.touched);
    RaisesIff(w, a.rig, a.touched);
    RaisesIff(w, b.rig, b.touched);
  }

  // A step that raises when it has nothing left to do.

  ghost predicate LateAct(act: StepAct) {
    Made(act) == act.demands && Sent(act) == act.pushes
  }

  ghost predicate Late(steps: seq<StepAct>) {
    forall i :: 0 <= i < |steps| ==> LateAct(steps[i])
  }

  function Calm(steps: seq<StepAct>): (calm: seq<StepAct>)
    ensures |calm| == |steps|
  {
    seq(|steps|, i requires 0 <= i < |steps| => steps[i].(raises := None))
  }

  /** Alike in everything but who failed: what the events, `_failing` and the acts taken tell. */
  ghost predicate AlikeBut(r: State, q: State) {
    && q.pushed == r.pushed && q.accepted == r.accepted && q.noted == r.noted
    && q.commits == r.commits && q.steps == Calm(r.steps) && Late(r.steps)
    && |q.batches| == |r.batches|
    && forall i :: 0 <= i < |r.batches| ==> q.batches[i] == r.batches[i].(taken := Calm(r.batches[i].taken))
  }

  lemma {:induction false} LateNext(steps: seq<StepAct>, k: nat)
    requires Late(steps)
    ensures Late(AfterStep(steps, k)) && LateAct(NextStep(steps, k))
    ensures AfterStep(Calm(steps), k) == Calm(AfterStep(steps, k))
    ensures NextStep(Calm(steps), k) == NextStep(steps, k).(raises := None)
    decreases |steps|
  {
    if steps == [] {
      assert LateAct(StepAct(k, [], [], None));
    } else {
      hide LateAct, Late, Calm;
      var first, rest := steps[0], steps[1..];
      assert steps == [first] + rest;
      LateCons(first, rest);
      LateNext(rest, k);
      LateCons(first, AfterStep(rest, k));
    }
  }

  lemma {:induction false} LateCons(act: StepAct, rest: seq<StepAct>)
    ensures Late([act] + rest) <==> LateAct(act) && Late(rest)
    ensures Calm([act] + rest) == [act.(raises := None)] + Calm(rest)
  {
    hide LateAct;
    var all := [act] + rest;
    assert all[0] == act && all[1..] == rest;
    forall i | 0 <= i < |rest| ensures rest[i] == all[i + 1] {
    }
  }

  lemma {:induction false} StepAlike(r: State, q: State, tick: nat)
    requires AlikeBut(r, q)
    ensures AlikeBut(StepOne(r, tick), StepOne(q, tick))
    ensures Made(NextStep(q.steps, tick)) == Made(NextStep(r.steps, tick))
    ensures NextStep(q.steps, tick) == NextStep(r.steps, tick).(raises := None)
  {
    hide NextStep, AfterStep, Calm, Late;
    LateNext(r.steps, tick);
  }

  lemma {:induction false} StepsAlike(r: State, q: State, ticks: seq<nat>, touched: seq<nat>)
    requires AlikeBut(r, q)
    ensures AlikeBut(StepAll(r, ticks, touched).rig, StepAll(q, ticks, touched).rig)
    ensures StepAll(r, ticks, touched).touched == StepAll(q, ticks, touched).touched
    ensures StepAll(q, ticks, touched).taken == Calm(StepAll(r, ticks, touched).taken)
    decreases |ticks|
  {
    hide AlikeBut, StepOne, NextStep, Made, Touch;
    if ticks != [] {
      var act := NextStep(r.steps, ticks[0]);
      StepAlike(r, q, ticks[0]);
      StepsAlike(StepOne(r, ticks[0]), StepOne(q, ticks[0]), ticks[1..], Touch(touched, Made(act)));
      var rest := StepAll(StepOne(r, ticks[0]), ticks[1..], Touch(touched, Made(act))).taken;
      assert Calm([act] + rest) == [act.(raises := None)] + Calm(rest);
    }
  }

  lemma {:induction false} CommitsAlike(w: Wiring, r: State, q: State, devices: seq<nat>)
    requires AlikeBut(r, q)
    ensures var c, e := CommitAll(w, r, devices), CommitAll(w, q, devices);
      AlikeBut(c.rig, e.rig) && c.done == e.done && c.handed == e.handed && c.raised == e.raised
    decreases |devices|
  {
    hide NextCommit, AfterCommit, Calm, Late;
    if devices != [] {
      CommitsAlike(w, r, q, devices[1..]);
      var act, rest := NextCommit(r.commits, devices[0]), AfterCommit(r.commits, devices[0]);
      CommitsAlike(w, Push(r.(commits := rest), act.pushes), Push(q.(commits := rest), act.pushes), devices[1..]);
    }
  }

  lemma {:induction false} DeliveriesAlike(w: Wiring, r: State, q: State, samples: seq<Sample>, noted: bool)
    requires AlikeBut(r, q)
    ensures var d, e := Deliver(w, r, samples, noted), Deliver(w, q, samples, noted);
      AlikeBut(d.rig, e.rig) && d.raised == e.raised
  {
    hide StepAll, CommitAll, Heard, Ticks, Calm, Late;
    var r0 := if noted then r else r.(noted := r.noted + samples);
    var q0 := if noted then q else q.(noted := q.noted + samples);
    StepsAlike(r0, q0, Ticks(w, samples), Heard(w, samples, []));
    var stepped := StepAll(r0, Ticks(w, samples), Heard(w, samples, []));
    var calm := StepAll(q0, Ticks(w, samples), Heard(w, samples, []));
    CommitsAlike(w, stepped.rig, calm.rig, stepped.touched);
  }

  lemma {:induction false} FlushesAlike(w: Wiring, r: State, q: State)
    requires AlikeBut(r, q)
    ensures AlikeBut(Flush(w, r).rig, Flush(w, q).rig) && Flush(w, r).raised == Flush(w, q).raised
    decreases |r.steps| + |r.commits|, |r.pushed|
  {
    hide Deliver, Calm, Late;
    if r.pushed != [] {
      DeliveryQueues(w, r.(pushed := []), r.pushed, true);
      DeliveryQueues(w, q.(pushed := []), r.pushed, true);
      DeliveriesAlike(w, r.(pushed := []), q.(pushed := []), r.pushed, true);
      var first := Deliver(w, r.(pushed := []), r.pushed, true);
      if !first.raised { FlushesAlike(w, first.rig, Deliver(w, q.(pushed := []), r.pushed, true).rig); }
    }
  }

  /** A step that raises when its demands and pushes are made costs nothing: over the whole call the
      same samples are delivered, the same devices commit and the same is recorded as if it had not. */
  lemma {:induction false} LateRaiseCostsNothing(w: Wiring, r: State, q: State, call: Call)
    requires AlikeBut(r, q)
    ensures AlikeBut(Do(w, r, call).0, Do(w, q, call).0) && Do(w, r, call).1 == Do(w, q, call).1
  {
    hide Deliver, Flush, CommitAll, Calm, Late;
    match call
    case Samples(samples) =>
      var r0, q0 := r.(accepted := r.accepted + samples), q.(accepted := q.accepted + samples);
      DeliveriesAlike(w, r0, q0, samples, false);
      FlushesAlike(w, Deliver(w, r0, samples, false).rig, Deliver(w, q0, samples, false).rig);
    case Demanded(device) =>
      CommitsAlike(w, r, q, [device]);
      FlushesAlike(w, CommitAll(w, r, [device]).rig, CommitAll(w, q, [device]).rig);
    case Readback(readbacks) =>
      FlushesAlike(w, Push(r, readbacks), Push(q, readbacks));
  }

  // A failing law is reported once, and once more when it steps again.

  ghost predicate Reported(r: State, controller: nat) {
    var told := Of(r.events, controller);
    && (forall i :: 0 <= i < |told| ==> told[i] == if i % 2 == 0 then StepFailed(controller) else StepRecovered(controller))
    && (controller in r.failing <==> |told| % 2 == 1)
  }

  lemma {:induction false} JudgedReports(r: State, stepped: nat, raises: bool, controller: nat)
    requires Reported(r, controller)
    ensures Reported(Judged(r, stepped, raises), controller)
  {
    hide Of, Judged;
    JudgedTells(r, stepped, raises, controller);
  }

  lemma {:induction false} StepsReport(r: State, ticks: seq<nat>, touched: seq<nat>, controller: nat)
    requires Reported(r, controller)
    ensures Reported(StepAll(r, ticks, touched).rig, controller)
    decreases |ticks|
  {
    hide Judged, Reported;
    if ticks != [] {
      var act := NextStep(r.steps, ticks[0]);
      var pushed := Push(r.(steps := AfterStep(r.steps, ticks[0])), Sent(act));
      SameReports(r, pushed, controller);
      JudgedReports(pushed, ticks[0], act.raises.Some?, controller);
      StepsReport(StepOne(r, ticks[0]), ticks[1..], Touch(touched, Made(act)), controller);
    }
  }

  lemma {:induction false} SameReports(r: State, q: State, controller: nat)
    requires Reported(r, controller) && q.events == r.events && q.failing == r.failing
    ensures Reported(q, controller)
  {
  }

  lemma {:induction false} DeliveryReports(w: Wiring, r: State, samples: seq<Sample>, noted: bool, controller: nat)
    requires Reported(r, controller)
    ensures Reported(Deliver(w, r, samples, noted).rig, controller)
  {
    hide StepAll, CommitAll, Heard, Ticks, Reported;
    var known := if noted then r else r.(noted := r.noted + samples);
    SameReports(r, known, controller);
    StepsReport(known, Ticks(w, samples), Heard(w, samples, []), controller);
    var stepped := StepAll(known, Ticks(w, samples), Heard(w, samples, []));
    CommitsOnlyPush(w, stepped.rig, stepped.touched);
    SameReports(stepped.rig, Deliver(w, r, samples, noted).rig, controller);
  }

  lemma {:induction false} FlushReports(w: Wiring, r: State, controller: nat)
    requires Reported(r, controller)
    ensures Reported(Flush(w, r).rig, controller)
    decreases |r.steps| + |r.commits|, |r.pushed|
  {
    hide Deliver, Reported;
    if r.pushed != [] {
      var emptied := r.(pushed := []);
      SameReports(r, emptied, controller);
      DeliveryQueues(w, emptied, r.pushed, true);
      DeliveryReports(w, emptied, r.pushed, true, controller);
      var first := Deliver(w, emptied, r.pushed, true);
      if !first.raised { FlushReports(w, first.rig, controller); }
    }
  }

  /** Whatever the calls, a controller's events alternate, beginning with a failure, and it is in
      `_failing` exactly while the last of them is one. */
  lemma {:induction false} FailuresAlternate(w: Wiring, r: State, call: Call, controller: nat)
    requires Reported(r, controller)
    ensures Reported(Do(w, r, call).0, controller)
  {
    hide Deliver, Flush, CommitAll, Reported;
    match call
    case Samples(samples) =>
      var taken := r.(accepted := r.accepted + samples);
      SameReports(r, taken, controller);
      DeliveryReports(w, taken, samples, false, controller);
      FlushReports(w, Deliver(w, taken, samples, false).rig, controller);
    case Demanded(device) =>
      CommitsOnlyPush(w, r, [device]);
      var end := CommitAll(w, r, [device]).rig;
      SameReports(r, end, controller);
      FlushReports(w, end, controller);
    case Readback(readbacks) =>
      SameReports(r, Push(r, readbacks), controller);
      FlushReports(w, Push(r, readbacks), controller);
  }

  // What a delivery pushes and reports is what its laws and devices did.

  function ActsOf(steps: seq<StepAct>, c: nat): seq<StepAct> {
    if steps == [] then [] else (if steps[0].controller == c then [steps[0]] else []) + ActsOf(steps[1..], c)
  }

  /** What the steps push, each until it raises if it does. */
  function Sends(taken: seq<StepAct>): seq<Sample> {
    if taken == [] then []
    else
      var (pushes, raises) := (taken[0].pushes, taken[0].raises);
      (if raises.Some? && raises.value.pushes < |pushes| then pushes[..raises.value.pushes] else pushes) + Sends(taken[1..])
  }

  function CommitSends(acts: seq<CommitAct>): seq<Sample> {
    if acts == [] then [] else acts[0].pushes + CommitSends(acts[1..])
  }

  /** A law's steps are its script from the front; past its end they do nothing. */
  ghost predicate Plays(script: seq<StepAct>, taken: seq<StepAct>, rest: seq<StepAct>, c: nat) {
    if |taken| <= |script| then script == taken + rest
    else
      && rest == [] && script <= taken
      && forall k :: |script| <= k < |taken| ==> taken[k] == StepAct(c, [], [], None)
  }

  /** The device's first act in the script, or a commit that does nothing. */
  ghost predicate FirstFor(commits: seq<CommitAct>, d: nat, act: CommitAct) {
    || (act == CommitAct(d, [], false) && forall i :: 0 <= i < |commits| ==> commits[i].device != d)
    || (exists i :: 0 <= i < |commits| && commits[i] == act && act.device == d
                    && forall j :: 0 <= j < i ==> commits[j].device != d)
  }

  /** The events about one controller whose steps raise, or do not, in this order. */
  function Told(failing: bool, acts: seq<StepAct>, c: nat): seq<Event>
    decreases |acts|
  {
    if acts == [] then []
    else
      var raised := acts[0].raises.Some?;
      (if raised && !failing then [StepFailed(c)] else if !raised && failing then [StepRecovered(c)] else [])
      + Told(raised, acts[1..], c)
  }

  lemma {:induction false} NextIsFirst(steps: seq<StepAct>, k: nat, c: nat)
    ensures c != k ==> ActsOf(AfterStep(steps, k), c) == ActsOf(steps, c)
    ensures c == k && ActsOf(steps, k) == [] ==>
      NextStep(steps, k) == StepAct(k, [], [], None) && ActsOf(AfterStep(steps, k), k) == []
    ensures c == k && ActsOf(steps, k) != [] ==>
      NextStep(steps, k) == ActsOf(steps, k)[0] && ActsOf(AfterStep(steps, k), k) == ActsOf(steps, k)[1..]
  {
    if steps != [] {
      NextIsFirst(steps[1..], k, c);
      if steps[0].controller != k { assert AfterStep(steps, k)[1..] == AfterStep(steps[1..], k); }
      assert [] + ActsOf(steps[1..], c) == ActsOf(steps[1..], c);
    }
  }

  lemma {:induction false} StepPushes(r: State, controller: nat)
    ensures StepOne(r, controller).pushed == r.pushed + Sent(NextStep(r.steps, controller))
  {
    hide Sent, NextStep, AfterStep;
  }

  lemma {:induction false} SendsOne(act: StepAct, rest: seq<StepAct>)
    ensures Sends([act] + rest) == Sent(act) + Sends(rest)
  {
    assert ([act] + rest)[1..] == rest;
  }

  lemma {:induction false} StepsPush(r: State, ticks: seq<nat>, touched: seq<nat>)
    ensures var s := StepAll(r, ticks, touched); s.rig.pushed == r.pushed + Sends(s.taken)
    decreases |ticks|
  {
    hide StepOne, Sent, Sends, Touch, Made, NextStep;
    if ticks == [] {
      NothingSent(r);
    } else {
      var next, act := StepOne(r, ticks[0]), NextStep(r.steps, ticks[0]);
      StepsPush(next, ticks[1..], Touch(touched, Made(act)));
      var rest := StepAll(next, ticks[1..], Touch(touched, Made(act))).taken;
      StepPushes(r, ticks[0]);
      SendsOne(act, rest);
      assert (r.pushed + Sent(act)) + Sends(rest) == r.pushed + (Sent(act) + Sends(rest));
    }
  }

  lemma {:induction false} NothingSent(r: State)
    ensures r.pushed + Sends([]) == r.pushed
  {
  }

  lemma {:induction false} StepsPlay(r: State, ticks: seq<nat>, touched: seq<nat>, c: nat)
    ensures var s := StepAll(r, ticks, touched);
      && Plays(ActsOf(r.steps, c), ActsOf(s.taken, c), ActsOf(s.rig.steps, c), c)
      && Of(s.rig.events, c) == Of(r.events, c) + Told(c in r.failing, ActsOf(s.taken, c), c)
    decreases |ticks|
  {
    hide Plays, Of, Told, Judged, Made, Sent, Touch;
    if ticks == [] {
      NothingPlayed(r, c);
    } else {
      var next, act := StepOne(r, ticks[0]), NextStep(r.steps, ticks[0]);
      StepsPlay(next, ticks[1..], Touch(touched, Made(act)), c);
      var s := StepAll(next, ticks[1..], Touch(touched, Made(act)));
      NextIsFirst(r.steps, ticks[0], c);
      JudgedTells(Push(r.(steps := AfterStep(r.steps, ticks[0])), Sent(act)), ticks[0], act.raises.Some?, c);
      JudgedKeepsSteps(Push(r.(steps := AfterStep(r.steps, ticks[0])), Sent(act)), ticks[0], act.raises.Some?);
      assert ([act] + s.taken)[1..] == s.taken;
      assert [] + ActsOf(s.taken, c) == ActsOf(s.taken, c);
      if ticks[0] == c {
        PlaysOne(ActsOf(r.steps, c), act, ActsOf(next.steps, c), ActsOf(s.taken, c), ActsOf(s.rig.steps, c), c);
        ToldOne(Of(r.events, c), c in r.failing, act, ActsOf(s.taken, c), c);
      }
    }
  }

  lemma {:induction false} NothingPlayed(r: State, c: nat)
    ensures Plays(ActsOf(r.steps, c), [], ActsOf(r.steps, c), c) && Of(r.events, c) + Told(c in r.failing, [], c) == Of(r.events, c)
  {
    assert [] + ActsOf(r.steps, c) == ActsOf(r.steps, c);
  }

  lemma {:induction false} PlaysOne(script: seq<StepAct>, act: StepAct, left: seq<StepAct>, taken: seq<StepAct>,
      rest: seq<StepAct>, c: nat)
    requires if script == [] then act == StepAct(c, [], [], None) && left == [] else act == script[0] && left == script[1..]
    requires Plays(left, taken, rest, c)
    ensures Plays(script, [act] + taken, rest, c)
  {
  }

  lemma {:induction false} ToldOne(events: seq<Event>, failing: bool, act: StepAct, acts: seq<StepAct>, c: nat)
    ensures var raised := act.raises.Some?;
      (if raised == failing then events else events + [if raised then StepFailed(c) else StepRecovered(c)])
        + Told(raised, acts, c)
      == events + Told(failing, [act] + acts, c)
  {
    assert ([act] + acts)[1..] == acts;
  }

  lemma {:induction false} NextCommitIsFirst(commits: seq<CommitAct>, d: nat)
    ensures FirstFor(commits, d, NextCommit(commits, d))
  {
    if commits != [] && commits[0].device != d {
      NextCommitIsFirst(commits[1..], d);
      var act := NextCommit(commits[1..], d);
      if i :| 0 <= i < |commits[1..]| && commits[1..][i] == act && act.device == d
              && forall j :: 0 <= j < i ==> commits[1..][j].device != d {
        assert commits[i + 1] == act;
        forall j | 0 <= j < i + 1 ensures commits[j].device != d {
          if j > 0 { assert commits[1..][j - 1] == commits[j]; }
        }
      } else {
        forall j | 0 <= j < |commits| ensures commits[j].device != d {
          if j > 0 { assert commits[1..][j - 1] == commits[j]; }
        }
      }
    }
  }

  lemma {:induction false} CommitsPush(w: Wiring, r: State, devices: seq<nat>) returns (acts: seq<CommitAct>)
    requires Distinct(devices)
    ensures var c := CommitAll(w, r, devices);
      && |acts| == |c.done| && (forall k :: 0 <= k < |acts| ==> acts[k] == NextCommit(r.commits, c.done[k]))
      && c.rig.pushed == r.pushed + CommitSends(acts)
      && (c.raised ==> acts != []) && forall k :: 0 <= k < |acts| ==> acts[k].raises == (c.raised && k == |acts| - 1)
    decreases |devices|
  {
    hide NextCommit, AfterCommit;
    acts := [];
    assert r.pushed + [] == r.pushed;
    if devices == [] {
    } else if devices[0] !in w.committable || devices[0] in w.blocking {
      acts := CommitsPush(w, r, devices[1..]);
    } else {
      var act := NextCommit(r.commits, devices[0]);
      var next := Push(r.(commits := AfterCommit(r.commits, devices[0])), act.pushes);
      if act.raises {
        acts := [act];
        assert [act][1..] == [] && act.pushes + [] == act.pushes;
      } else {
        var rest := CommitsPush(w, next, devices[1..]);
        CommitsEachOnce(w, next, devices[1..]);
        var done := CommitAll(w, next, devices[1..]).done;
        forall k | 0 <= k < |done| ensures rest[k] == NextCommit(r.commits, done[k]) {
          assert done[k] in done;
          NextCommitKept(r.commits, devices[0], done[k]);
        }
        acts := [act] + rest;
        assert acts[1..] == rest;
        assert next.pushed + CommitSends(rest) == r.pushed + (act.pushes + CommitSends(rest));
      }
    }
  }

  /** What is pushed during a delivery is what the laws it stepped push and then what the devices it
      committed do: each law its own acts in their order, each device its own first; a commit that raises is
      the last. A controller's events are the changes: a failure where it first raises, a recovery where it
      steps again. */
  lemma {:induction false} DeliveryPlays(w: Wiring, r: State, samples: seq<Sample>, noted: bool, c: nat)
    returns (acts: seq<CommitAct>)
    ensures var d := Deliver(w, r, samples, noted);
      && |d.rig.batches| == |r.batches| + 1
      && var batch := d.rig.batches[|r.batches|];
         && batch.pushes == Sends(batch.taken) + CommitSends(acts)
         && Plays(ActsOf(r.steps, c), ActsOf(batch.taken, c), ActsOf(d.rig.steps, c), c)
         && |acts| == |batch.commits|
         && (d.raised ==> acts != [])
         && (forall k :: 0 <= k < |acts| ==>
               FirstFor(r.commits, batch.commits[k], acts[k]) && acts[k].raises == (d.raised && k == |acts| - 1))
         && Of(d.rig.events, c) == Of(r.events, c) + Told(c in r.failing, ActsOf(batch.taken, c), c)
  {
    hide StepAll, CommitAll, Heard, Ticks, Plays, Of, Told, ActsOf, Sends, CommitSends, FirstFor, Distinct;
    DeliveryQueues(w, r, samples, noted);
    var known := if noted then r else r.(noted := r.noted + samples);
    var ticks, heard := Ticks(w, samples), Heard(w, samples, []);
    StepsPush(known, ticks, heard);
    StepsPlay(known, ticks, heard, c);
    StepsOnlyPush(known, ticks, heard);
    NoneTwice();
    HeardTouches(w, samples, []);
    StepsTouch(known, ticks, heard);
    var stepped := StepAll(known, ticks, heard);
    CommitsOnlyPush(w, stepped.rig, stepped.touched);
    acts := CommitsPush(w, stepped.rig, stepped.touched);
    var done := CommitAll(w, stepped.rig, stepped.touched).done;
    forall k | 0 <= k < |acts| ensures FirstFor(r.commits, done[k], acts[k]) { NextCommitIsFirst(r.commits, done[k]); }
    assert r.pushed + Sends(stepped.taken) + CommitSends(acts) == r.pushed + (Sends(stepped.taken) + CommitSends(acts));
  }

  lemma {:induction false} NoneTwice()
    ensures Distinct([])
  {
  }

  // The code, updating its fields in place, against the functions above.

  /** What a loop has committed and handed over, and what is still to come. */
  function Joined(c: Committed, done: seq<nat>, handed: seq<nat>): Committed {
    c.(done := done + c.done, handed := handed + c.handed)
  }

  lemma {:induction false} NoCommits(w: Wiring, r: State, done: seq<nat>, handed: seq<nat>)
    ensures Joined(CommitAll(w, r, []), done, handed) == Committed(r, done, handed, false)
  {
  }

  lemma {:induction false} CommitsOn(w: Wiring, r: State, devices: seq<nat>, done: seq<nat>, handed: seq<nat>)
    requires devices != []
    ensures var device, rest, act := devices[0], devices[1..], NextCommit(r.commits, devices[0]);
      var next := Push(r.(commits := AfterCommit(r.commits, device)), act.pushes);
      Joined(CommitAll(w, r, devices), done, handed) ==
        if device !in w.committable then Joined(CommitAll(w, r, rest), done, handed)
        else if device in w.blocking then Joined(CommitAll(w, r, rest), done, handed + [device])
        else if act.raises then Committed(next, done + [device], handed, true)
        else Joined(CommitAll(w, next, rest), done + [device], handed)
  {
    hide NextCommit, AfterCommit, Push;
    var device, rest, act := devices[0], devices[1..], NextCommit(r.commits, devices[0]);
    var next := Push(r.(commits := AfterCommit(r.commits, device)), act.pushes);
    var c, e := CommitAll(w, r, rest), CommitAll(w, next, rest);
    assert handed + ([device] + c.handed) == (handed + [device]) + c.handed;
    assert done + ([device] + e.done) == (done + [device]) + e.done;
    assert handed + [] == handed;
  }

  function Ahead(s: Stepped, taken: seq<StepAct>): Stepped {
    s.(taken := taken + s.taken)
  }

  lemma {:induction false} StepsOn(r: State, ticks: seq<nat>, touched: seq<nat>, taken: seq<StepAct>)
    requires ticks != []
    ensures var act := NextStep(r.steps, ticks[0]);
      Ahead(StepAll(r, ticks, touched), taken)
        == Ahead(StepAll(StepOne(r, ticks[0]), ticks[1..], Touch(touched, Made(act))), taken + [act])
  {
    hide NextStep, StepOne, Touch, Made;
    var act := NextStep(r.steps, ticks[0]);
    var rest := StepAll(StepOne(r, ticks[0]), ticks[1..], Touch(touched, Made(act)));
    assert taken + ([act] + rest.taken) == (taken + [act]) + rest.taken;
  }

  class Rig {
    const wiring: Wiring
    var pushed: seq<Sample>
    var touched: Option<seq<nat>>
    var failing: set<nat>
    var events: seq<Event>
    var steps: seq<StepAct>
    var commits: seq<CommitAct>
    ghost var accepted: seq<Sample>
    ghost var noted: seq<Sample>
    ghost var batches: seq<Batch>

    constructor (wiring: Wiring, steps: seq<StepAct>, commits: seq<CommitAct>)
      ensures this.wiring == wiring && touched == None && View() == State([], {}, [], [], [], [], steps, commits)
    {
      this.wiring := wiring;
      pushed, touched, failing, events := [], None, {}, [];
      this.steps, this.commits := steps, commits;
      accepted, noted, batches := [], [], [];
    }

    ghost function View(): State
      reads this
    {
      State(pushed, failing, events, accepted, noted, batches, steps, commits)
    }

    /** From inside a delivery: noted and queued. From outside: delivered, with all it brings. */
    method OnSamples(samples: seq<Sample>) returns (reply: Reply)
      modifies this
      ensures touched == old(touched)
      ensures old(touched) == None ==> (View(), reply) == Outside(wiring, old(View()), samples)
      ensures old(touched) != None && reply == Fine ==> View() == Push(old(View()), samples)
      ensures old(touched) != None && reply != Fine ==> View() == old(View())
    {
      hide Deliver, Flush;
      var i := 0;
      while i < |samples|
        invariant i <= |samples| && forall j :: 0 <= j < i ==> samples[j].signals != []
      {
        if samples[i].signals == [] { return Refused; }
        i := i + 1;
      }
      if samples == [] { return Fine; }
      if touched != None {
        noted := noted + samples;
        accepted := accepted + samples;
        pushed := pushed + samples;
        return Fine;
      }
      accepted := accepted + samples;
      var raised := DeliverSamples(samples, false);
      if raised { return Propagated; }
      raised := FlushPushed();
      return if raised then Propagated else Fine;
    }

    method Step(controller: nat) returns (ghost act: StepAct)
      requires touched != None
      modifies this
      ensures View() == StepOne(old(View()), controller) && act == NextStep(old(steps), controller)
      ensures touched == Some(Touch(old(touched.value), Made(act)))
    {
      var does := NextStep(steps, controller);
      act := does;
      steps := AfterStep(steps, controller);
      touched := Some(Touch(touched.value, Made(does)));
      pushed := pushed + Sent(does);
      accepted, noted := accepted + Sent(does), noted + Sent(does);
      if does.raises != None {
        if controller !in failing {
          failing := failing + {controller};
          events := events + [StepFailed(controller)];
        }
        return;
      }
      if controller in failing {
        failing := failing - {controller};
        events := events + [StepRecovered(controller)];
      }
    }

    method Commit(devices: seq<nat>) returns (done: seq<nat>, handed: seq<nat>, raised: bool)
      modifies this
      ensures Committed(View(), done, handed, raised) == CommitAll(wiring, old(View()), devices)
      ensures touched == old(touched)
    {
      hide CommitAll, NextCommit, AfterCommit;
      done, handed, raised := [], [], false;
      var i := 0;
      assert devices[0..] == devices;
      ghost var all := CommitAll(wiring, View(), devices);
      assert [] + all.done == all.done && [] + all.handed == all.handed;
      while i < |devices|
        invariant i <= |devices| && touched == old(touched) && !raised
        invariant all == Joined(CommitAll(wiring, View(), devices[i..]), done, handed)
      {
        var device := devices[i];
        assert devices[i..][0] == device && devices[i..][1..] == devices[i + 1..];
        CommitsOn(wiring, View(), devices[i..], done, handed);
        i := i + 1;
        if device !in wiring.committable { continue; }
        if device in wiring.blocking {
          handed := handed + [device];
          continue;
        }
        var act := NextCommit(commits, device);
        commits := AfterCommit(commits, device);
        pushed := pushed + act.pushes;
        accepted, noted := accepted + act.pushes, noted + act.pushes;
        done := done + [device];
        if act.raises { return done, handed, true; }
      }
      assert devices[i..] == [];
      NoCommits(wiring, View(), done, handed);
    }

    /** What one sample's readings reach, and which controllers they tick. */
    method LandSignals(signals: seq<nat>) returns (ticks: seq<nat>)
      requires touched != None
      modifies this`touched
      ensures touched == Some(Observed(wiring, signals, old(touched.value))) && ticks == SignalTicks(wiring, signals)
    {
      hide Touch;
      ticks := [];
      var j := 0;
      assert signals[0..] == signals;
      while j < |signals|
        invariant j <= |signals| && touched != None
        invariant Observed(wiring, signals[j..], touched.value) == Observed(wiring, signals, old(touched.value))
        invariant ticks + SignalTicks(wiring, signals[j..]) == SignalTicks(wiring, signals)
      {
        var rest := signals[j + 1..];
        assert signals[j..][0] == signals[j] && signals[j..][1..] == rest;
        touched := Some(Touch(touched.value, wiring.observers(signals[j])));
        match wiring.controller(signals[j]) {
          case Some(c) =>
            assert ticks + ([c] + SignalTicks(wiring, rest)) == (ticks + [c]) + SignalTicks(wiring, rest);
            ticks := ticks + [c];
          case None =>
            assert [] + SignalTicks(wiring, rest) == SignalTicks(wiring, rest);
        }
        j := j + 1;
      }
      assert ticks + [] == ticks;
    }

    /** What each sample reaches, and which controllers it ticks. */
    method Land(samples: seq<Sample>) returns (ticks: seq<nat>)
      requires touched == Some([])
      modifies this`touched
      ensures touched == Some(Heard(wiring, samples, [])) && ticks == Ticks(wiring, samples)
    {
      hide Touch, Observed, SignalTicks;
      ticks := [];
      var i := 0;
      assert samples[0..] == samples;
      while i < |samples|
        invariant i <= |samples| && touched != None
        invariant Heard(wiring, samples[i..], touched.value) == Heard(wiring, samples, [])
        invariant ticks + Ticks(wiring, samples[i..]) == Ticks(wiring, samples)
      {
        assert samples[i..][0] == samples[i] && samples[i..][1..] == samples[i + 1..];
        var more := LandSignals(samples[i].signals);
        touched := Some(Touch(touched.value, wiring.listeners(samples[i])));
        assert ticks + (more + Ticks(wiring, samples[i + 1..])) == (ticks + more) + Ticks(wiring, samples[i + 1..]);
        ticks := ticks + more;
        i := i + 1;
      }
      assert ticks + [] == ticks;
    }

    method DeliverSamples(samples: seq<Sample>, alreadyNoted: bool) returns (raised: bool)
      requires touched == None
      modifies this
      ensures touched == None
      ensures Delivery(View(), raised) == Deliver(wiring, old(View()), samples, alreadyNoted)
    {
      hide Heard, Ticks, CommitAll, StepOne, Touch, Made, NextStep;
      touched := Some([]);
      if !alreadyNoted { noted := noted + samples; }
      ghost var known := View();
      var ticks := Land(samples);
      var i := 0;
      ghost var taken: seq<StepAct> := [];
      assert ticks[0..] == ticks;
      ghost var stepped := StepAll(known, ticks, Heard(wiring, samples, []));
      assert [] + stepped.taken == stepped.taken;
      while i < |ticks|
        invariant i <= |ticks| && touched != None
        invariant stepped == Ahead(StepAll(View(), ticks[i..], touched.value), taken)
      {
        assert ticks[i..][0] == ticks[i] && ticks[i..][1..] == ticks[i + 1..];
        StepsOn(View(), ticks[i..], touched.value, taken);
        ghost var act := Step(ticks[i]);
        taken := taken + [act];
        i := i + 1;
      }
      assert taken + [] == taken;
      var done, handed;
      done, handed, raised := Commit(touched.value);
      touched := None;
      ghost var first := |old(pushed)|;
      ghost var pushes := if first <= |pushed| then pushed[first..] else [];
      batches := batches + [Batch(samples, ticks, taken, done, handed, pushes, !raised)];
    }

    method FlushPushed() returns (raised: bool)
      requires touched == None
      modifies this
      ensures touched == None
      ensures Delivery(View(), raised) == Flush(wiring, old(View()))
    {
      hide Deliver;
      raised := false;
      while pushed != []
        invariant touched == None && !raised
        invariant Flush(wiring, View()) == Flush(wiring, old(View()))
        decreases |steps| + |commits|, |pushed|
      {
        var batch := pushed;
        DeliveryQueues(wiring, View().(pushed := []), batch, true);
        pushed := [];
        raised := DeliverSamples(batch, true);
        if raised { return; }
      }
    }
  }
}
