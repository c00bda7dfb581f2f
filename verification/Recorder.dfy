/** Recording deliveries (`engine/src/flyball/runtime/recorder.py`): buffers that several threads append
    to and one flush at a time takes and writes.

    A step is what happens under one lock, or one call of the store; `declare` is two, since it shows
    the new signals before it queues them. */
module Recorder {
  import opened Options

  /** A sample's row: what it is, and the signals it carries. */
  datatype Row = Row(id: nat, signals: set<nat>)

  datatype Rows = Rows(samples: seq<Row>, ticks: seq<nat>, states: seq<nat>, events: seq<nat>)

  const NONE := Rows([], [], [], [])

  function Then(a: Rows, b: Rows): Rows {
    Rows(a.samples + b.samples, a.ticks + b.ticks, a.states + b.states, a.events + b.events)
  }

  datatype Who = Writer | Caller(id: nat) | Closer

  /** What a flush has taken and not yet written. */
  datatype Flight = Flight(who: Who, declared: seq<nat>, rows: Rows)

  datatype Closing = NotClosing | Stopping | Last | Ended

  datatype State = State(
    published: set<nat>, declaring: seq<nat>, declared: seq<nat>, buffer: Rows, flight: Option<Flight>,
    failing: bool, failed: bool, threadAlive: bool, closing: Closing,
    known: set<nat>,        // the signals the store has been told of
    written: Rows, accepted: Rows, lost: bool, closedAt: Rows)

  function Opened(signals: set<nat>): State {
    State(signals, [], [], NONE, None, false, false, true, NotClosing, signals, NONE, NONE, false, NONE)
  }

  datatype Action =
    | Record(samples: seq<Row>, ticks: seq<nat>, states: seq<nat>)
    | AcceptEvent(event: nat)
    | ShowNew(signals: seq<nat>)
    | QueueNew
    | Take(who: Who)
    | WriteNext(ok: bool)
    | NoteFailure
    | ThreadEnds
    | BeginClose
    | EndClose

  function Kept(samples: seq<Row>, published: set<nat>): seq<Row> {
    if samples == [] then []
    else
      var seen := samples[0].signals * published;
      (if seen != {} then [Row(samples[0].id, seen)] else []) + Kept(samples[1..], published)
  }

  function Accept(s: State, more: Rows): State {
    s.(buffer := Then(s.buffer, more), accepted := Then(s.accepted, more))
  }

  function Unseen(signals: seq<nat>, published: set<nat>): seq<nat> {
    if signals == [] then []
    else (if signals[0] in published then [] else [signals[0]]) + Unseen(signals[1..], published)
  }

  function TakeAll(s: State, who: Who): State {
    s.(flight := Some(Flight(who, s.declared, s.buffer)), declared := [], buffer := NONE,
       closedAt := if who == Closer then s.accepted else s.closedAt,
       closing := if who == Closer then Last else s.closing)
  }

  datatype StoreCall = Tell(signal: nat) | Put(rows: Rows) | Over

  /** The next call of the store: a declaration, the samples, the ticks, one write state, one event. */
  function NextCall(f: Flight): StoreCall {
    if f.declared != [] then Tell(f.declared[0])
    else if f.rows.samples != [] then Put(NONE.(samples := f.rows.samples))
    else if f.rows.ticks != [] then Put(NONE.(ticks := f.rows.ticks))
    else if f.rows.states != [] then Put(NONE.(states := [f.rows.states[0]]))
    else if f.rows.events != [] then Put(NONE.(events := [f.rows.events[0]]))
    else Over
  }

  function StillToWrite(f: Flight): Flight {
    if f.declared != [] then f.(declared := f.declared[1..])
    else if f.rows.samples != [] then f.(rows := f.rows.(samples := []))
    else if f.rows.ticks != [] then f.(rows := f.rows.(ticks := []))
    else if f.rows.states != [] then f.(rows := f.rows.(states := f.rows.states[1..]))
    else if f.rows.events != [] then f.(rows := f.rows.(events := f.rows.events[1..]))
    else f
  }

  function Write(s: State): State
    requires s.flight.Some?
  {
    var f := s.flight.value;
    match NextCall(f)
    case Tell(signal) => s.(known := s.known + {signal}, flight := Some(StillToWrite(f)))
    case Put(rows) => s.(written := Then(s.written, rows), flight := Some(StillToWrite(f)))
    case Over => s.(flight := None)
  }

  /** The store raised: what was taken is lost. On the writer thread that ends the recording; in
      `close`, the close. */
  function Broken(s: State): State
    requires s.flight.Some?
  {
    s.(flight := None, lost := true, failing := s.failing || s.flight.value.who == Writer,
       closing := if s.flight.value.who == Closer then Ended else s.closing)
  }

  predicate Enabled(s: State, a: Action) {
    match a
    case Record(_, _, _) => true
    case AcceptEvent(_) => true
    case ShowNew(_) => s.declaring == []
    case QueueNew => s.declaring != []
    case Take(who) =>
      && s.flight.None?
      && (who == Writer ==> s.threadAlive && !s.failing && !s.failed)
      && (who == Closer ==> s.closing == Stopping && !s.threadAlive && !s.failed)
    case WriteNext(_) => s.flight.Some?
    case NoteFailure => s.failing
    case ThreadEnds =>
      && s.threadAlive && !s.failing && (s.closing != NotClosing || s.failed)
      && (s.flight.Some? ==> s.flight.value.who != Writer)
    case BeginClose => s.closing == NotClosing
    case EndClose => (s.closing == Last && s.flight.None?) || (s.closing == Stopping && !s.threadAlive && s.failed)
  }

  function Do(s: State, a: Action): State
    requires Enabled(s, a)
  {
    match a
    case Record(samples, ticks, states) => if s.failed then s else Accept(s, Rows(Kept(samples, s.published), ticks, states, []))
    case AcceptEvent(event) => if s.failed then s else Accept(s, Rows([], [], [], [event]))
    case ShowNew(signals) =>
      var unseen := Unseen(signals, s.published);
      s.(published := s.published + (set x | x in unseen), declaring := unseen)
    case QueueNew => s.(declared := s.declared + s.declaring, declaring := [])
    case Take(who) => TakeAll(s, who)
    case WriteNext(ok) => if ok then Write(s) else Broken(s)
    case NoteFailure => s.(failing := false, failed := true, buffer := NONE, declared := [])
    case ThreadEnds => s.(threadAlive := false)
    case BeginClose => s.(closing := Stopping)
    case EndClose => s.(closing := Ended)
  }

  // Nothing between accepted and written but what is buffered and what is in flight.

  function InFlight(s: State): Rows {
    if s.flight.Some? then s.flight.value.rows else NONE
  }

  ghost predicate Complete(s: State) {
    s.lost || s.accepted == Then(s.written, Then(InFlight(s), s.buffer))
  }

  lemma {:induction false} ThenLater(a: Rows, b: Rows, c: Rows, more: Rows)
    ensures Then(Then(a, Then(b, c)), more) == Then(a, Then(b, Then(c, more)))
    ensures Then(NONE, c) == c && Then(c, NONE) == c
  {
  }

  /** One call takes from what is in flight just what it gives the store. */
  lemma {:induction false} CallMoves(f: Flight)
    ensures var g, call := StillToWrite(f), NextCall(f);
      && g.who == f.who
      && (call.Tell? ==> f.declared == [call.signal] + g.declared && g.rows == f.rows)
      && (call.Put? ==> f.declared == g.declared == [] && Then(call.rows, g.rows) == f.rows)
      && (call == Over <==> f.declared == [] && f.rows == NONE)
  {
    if f.declared == [] && f.rows.samples == [] && f.rows.ticks == [] {
      if f.rows.states != [] {
        assert [f.rows.states[0]] + f.rows.states[1..] == f.rows.states;
      } else if f.rows.events != [] {
        assert [f.rows.events[0]] + f.rows.events[1..] == f.rows.events;
      }
    }
  }

  /** So it only moves rows from in flight to written. */
  lemma {:induction false} WriteMoves(s: State)
    requires s.flight.Some?
    ensures var t := Write(s);
      && Then(t.written, InFlight(t)) == Then(s.written, InFlight(s))
      && t == s.(known := t.known, written := t.written, flight := t.flight)
      && Within(s.written, t.written)
  {
    hide Then, NextCall, StillToWrite, Within;
    var f := s.flight.value;
    CallMoves(f);
    WithinMore(s.written, NONE);
    match NextCall(f)
    case Put(rows) =>
      Regroup(s.written, rows, StillToWrite(f).rows);
      WithinMore(s.written, rows);
    case _ =>
  }

  lemma {:induction false} WithinMore(a: Rows, more: Rows)
    ensures Within(a, Then(a, more)) && Within(a, a)
  {
  }

  lemma {:induction false} Regroup(a: Rows, b: Rows, c: Rows)
    ensures Then(Then(a, b), c) == Then(a, Then(b, c))
  {
  }

  ghost predicate Within(a: Rows, b: Rows) {
    a.samples <= b.samples && a.ticks <= b.ticks && a.states <= b.states && a.events <= b.events
  }

  /** What had been accepted when `close` took the buffers for the last time is written, or in its own
      hands, whatever is accepted later. */
  ghost predicate ClosesWell(s: State) {
    && ((s.lost || s.closing == NotClosing || s.closing == Stopping)
        || (if s.flight.Some? && s.flight.value.who == Closer then s.closing == Last && s.closedAt == Then(s.written, InFlight(s))
            else Within(s.closedAt, s.written)))
    && (s.failed || s.failing ==> s.lost)
    && (s.flight.Some? && s.flight.value.who == Closer ==> s.closing == Last)
  }

  lemma {:induction false} TakeKeepsComplete(s: State, who: Who)
    requires Complete(s) && ClosesWell(s) && Enabled(s, Take(who))
    ensures Complete(TakeAll(s, who)) && ClosesWell(TakeAll(s, who))
  {
  }

  lemma {:induction false} WriteKeepsComplete(s: State)
    requires Complete(s) && ClosesWell(s) && s.flight.Some?
    ensures Complete(Write(s)) && ClosesWell(Write(s))
  {
    hide Write;
    var t := Write(s);
    WriteMoves(s);
    Regroup(s.written, InFlight(s), s.buffer);
    Regroup(t.written, InFlight(t), t.buffer);
    if t.flight.None? { ThenLater(NONE, NONE, t.written, NONE); }
    WriterStays(s);
  }

  lemma {:induction false} WriterStays(s: State)
    requires s.flight.Some?
    ensures Write(s).flight.Some? ==> Write(s).flight.value.who == s.flight.value.who
  {
    hide NextCall, StillToWrite, Then;
    CallMoves(s.flight.value);
  }

  lemma {:induction false} AcceptKeepsComplete(s: State, more: Rows)
    requires Complete(s)
    ensures Complete(Accept(s, more))
  {
  }

  lemma {:induction false} StepKeepsComplete(s: State, a: Action)
    requires Complete(s) && ClosesWell(s) && Enabled(s, a)
    ensures Complete(Do(s, a)) && ClosesWell(Do(s, a))
  {
    hide Write, Then, Kept;
    match a
    case Record(samples, ticks, states) => AcceptKeepsComplete(s, Rows(Kept(samples, s.published), ticks, states, []));
    case AcceptEvent(event) => AcceptKeepsComplete(s, Rows([], [], [], [event]));
    case ShowNew(signals) =>
    case QueueNew =>
    case Take(who) => TakeKeepsComplete(s, who);
    case WriteNext(ok) => if ok { WriteKeepsComplete(s); }
    case NoteFailure =>
    case ThreadEnds =>
    case BeginClose =>
    case EndClose =>
  }

  // Every interleaving.

  ghost predicate IsRun(states: seq<State>, actions: seq<Action>, signals: set<nat>) {
    && |states| == |actions| + 1 && states[0] == Opened(signals)
    && forall i :: 0 <= i < |actions| ==> Enabled(states[i], actions[i]) && states[i + 1] == Do(states[i], actions[i])
  }

  lemma {:induction false} EveryRunIsComplete(states: seq<State>, actions: seq<Action>, signals: set<nat>, i: nat)
    requires IsRun(states, actions, signals) && i < |states|
    ensures Complete(states[i]) && ClosesWell(states[i])
  {
    if i == 0 {
      ThenLater(NONE, NONE, NONE, NONE);
    } else {
      hide Complete, ClosesWell, Enabled, Do;
      EveryRunIsComplete(states, actions, signals, i - 1);
      StepKeepsComplete(states[i - 1], actions[i - 1]);
    }
  }

  /** However `record`, `event`, the writer thread's flush and a caller's interleave, for each kind of
      row what is written, in flight and buffered, in that order, is what was accepted, until the
      store fails. */
  lemma {:induction false} WrittenInOrder(states: seq<State>, actions: seq<Action>, signals: set<nat>, i: nat)
    requires IsRun(states, actions, signals) && i < |states| && !states[i].lost
    ensures var s := states[i];
      && s.accepted.samples == s.written.samples + InFlight(s).samples + s.buffer.samples
      && s.accepted.ticks == s.written.ticks + InFlight(s).ticks + s.buffer.ticks
      && s.accepted.states == s.written.states + InFlight(s).states + s.buffer.states
      && s.accepted.events == s.written.events + InFlight(s).events + s.buffer.events
  {
    EveryRunIsComplete(states, actions, signals, i);
    var s := states[i];
    Regroup(s.written, InFlight(s), s.buffer);
  }

  /** Once `close` has returned with the store sound, everything accepted before it last took the
      buffers is written; where nothing is accepted after, everything. */
  lemma {:induction false} CloseLeavesNothing(states: seq<State>, actions: seq<Action>, signals: set<nat>, i: nat)
    requires IsRun(states, actions, signals) && i < |states| && !states[i].lost && states[i].closing == Ended
    ensures var s := states[i];
      && Within(s.closedAt, s.written)
      && (s.accepted == s.closedAt ==> s.written == s.accepted && s.buffer == NONE && InFlight(s) == NONE)
  {
    EveryRunIsComplete(states, actions, signals, i);
    var s := states[i];
    if s.accepted == s.closedAt {
      Filled(s.accepted.samples, s.written.samples, InFlight(s).samples, s.buffer.samples);
      Filled(s.accepted.ticks, s.written.ticks, InFlight(s).ticks, s.buffer.ticks);
      Filled(s.accepted.states, s.written.states, InFlight(s).states, s.buffer.states);
      Filled(s.accepted.events, s.written.events, InFlight(s).events, s.buffer.events);
    }
  }

  lemma {:induction false} Filled<T>(all: seq<T>, a: seq<T>, b: seq<T>, c: seq<T>)
    requires all == a + (b + c) && all <= a
    ensures a == all && b == [] && c == []
  {
  }

  // What is accepted is what was given.

  /** The rows kept are those of the samples, at `at`, that carry a published signal, in their order, each
      with just those it carries that are. */
  ghost predicate Narrowed(samples: seq<Row>, published: set<nat>, rows: seq<Row>, at: seq<nat>) {
    && |at| == |rows|
    && (forall k :: 0 <= k < |at| ==> at[k] < |samples| && NarrowedTo(samples[at[k]], published, rows[k]))
    && (forall j, k :: 0 <= j < k < |at| ==> at[j] < at[k])
    && (forall i: nat :: i < |samples| && (exists x :: x in samples[i].signals && x in published) ==> i in at)
  }

  ghost predicate NarrowedTo(sample: Row, published: set<nat>, row: Row) {
    row.id == sample.id && row.signals != {} && forall x :: x in row.signals <==> x in sample.signals && x in published
  }

  lemma {:induction false} KeptMore(samples: seq<Row>, last: Row, published: set<nat>)
    ensures Kept(samples + [last], published)
         == Kept(samples, published) + (if last.signals * published != {} then [Row(last.id, last.signals * published)] else [])
  {
    if samples == [] {
      assert [] + [last] == [last] && [last][1..] == [];
    } else {
      assert (samples + [last])[1..] == samples[1..] + [last];
      KeptMore(samples[1..], last, published);
    }
  }

  lemma {:induction false} KeptIsNarrowed(samples: seq<Row>, published: set<nat>) returns (at: seq<nat>)
    ensures Narrowed(samples, published, Kept(samples, published), at)
    decreases |samples|
  {
    at := [];
    if samples != [] {
      hide Narrowed, NarrowedTo, Kept;
      var n := |samples| - 1;
      var (before, last) := (samples[..n], samples[n]);
      at := KeptIsNarrowed(before, published);
      assert samples == before + [last];
      KeptMore(before, last, published);
      var seen := last.signals * published;
      if seen != {} {
        NarrowsOne(last, published);
        RowAdded(before, last, published, Kept(before, published), Row(last.id, seen), at);
        at := at + [n];
      } else {
        RowsKept(before, last, published, Kept(before, published), at);
      }
    }
  }

  lemma {:induction false} NarrowsOne(sample: Row, published: set<nat>)
    requires sample.signals * published != {}
    ensures NarrowedTo(sample, published, Row(sample.id, sample.signals * published))
  {
  }

  lemma {:induction false} RowAdded(samples: seq<Row>, last: Row, published: set<nat>, rows: seq<Row>, row: Row, at: seq<nat>)
    requires Narrowed(samples, published, rows, at) && NarrowedTo(last, published, row)
    ensures Narrowed(samples + [last], published, rows + [row], at + [|samples|])
  {
    hide NarrowedTo;
    var (n, all) := (|samples|, at + [|samples|]);
    assert all[|at|] == n;
    forall i: nat | i < n && (exists x :: x in samples[i].signals && x in published) ensures i in all {
      assert i in at;
    }
  }

  lemma {:induction false} RowsKept(samples: seq<Row>, last: Row, published: set<nat>, rows: seq<Row>, at: seq<nat>)
    requires Narrowed(samples, published, rows, at) && last.signals * published == {}
    ensures Narrowed(samples + [last], published, rows + [], at)
  {
    hide NarrowedTo;
    assert rows + [] == rows;
    assert forall x :: x in last.signals && x in published ==> x in last.signals * published;
  }

  /** Until the recording has failed, a delivery adds to what is accepted the samples narrowed to what is
      published, and its ticks and states as they are; an event adds itself; and nothing else adds anything. */
  lemma {:induction false} AcceptsWhatIsGiven(s: State, a: Action) returns (rows: seq<Row>, at: seq<nat>)
    requires Enabled(s, a)
    ensures var (before, after) := (s.accepted, Do(s, a).accepted);
      && after.samples == before.samples + rows
      && (if a.Record? && !s.failed then Narrowed(a.samples, s.published, rows, at) else rows == [])
      && after.ticks == before.ticks + (if a.Record? && !s.failed then a.ticks else [])
      && after.states == before.states + (if a.Record? && !s.failed then a.states else [])
      && after.events == before.events + (if a.AcceptEvent? && !s.failed then [a.event] else [])
  {
    hide Kept, Narrowed, Write;
    rows, at := [], [];
    var before := s.accepted;
    assert before.samples + [] == before.samples && before.ticks + [] == before.ticks;
    assert before.states + [] == before.states && before.events + [] == before.events;
    if a.Record? && !s.failed {
      rows := Kept(a.samples, s.published);
      at := KeptIsNarrowed(a.samples, s.published);
    } else if a.WriteNext? && a.ok {
      WriteMoves(s);
    }
  }

  // The close, and what ends a recording.

  lemma {:induction false} RunStep(states: seq<State>, actions: seq<Action>, signals: set<nat>, i: nat)
    requires IsRun(states, actions, signals) && i < |actions|
    ensures i + 1 < |states| && Enabled(states[i], actions[i]) && states[i + 1] == Do(states[i], actions[i])
  {
  }

  lemma {:induction false} ClosedForGood(s: State, a: Action)
    requires Enabled(s, a) && (s.closing == Last || s.closing == Ended)
    ensures var t := Do(s, a); (t.closing == Last || t.closing == Ended) && t.closedAt == s.closedAt
  {
    hide Write;
    if a.WriteNext? && a.ok { WriteMoves(s); }
  }

  /** Everything accepted before `close` last took the buffers is written by the time it has ended, if the
      store has not failed, whatever happened in between. */
  lemma {:induction false} CloseWritesAll(states: seq<State>, actions: seq<Action>, signals: set<nat>, k: nat, i: nat)
    requires IsRun(states, actions, signals) && k < i < |states| && actions[k] == Take(Closer)
    requires states[i].closing == Ended && !states[i].lost
    ensures states[k].accepted.samples <= states[i].written.samples && states[k].accepted.ticks <= states[i].written.ticks
    ensures states[k].accepted.states <= states[i].written.states && states[k].accepted.events <= states[i].written.events
  {
    CloseLeavesNothing(states, actions, signals, i);
    TakenAtClose(states, actions, signals, k, i);
  }

  lemma {:induction false} TakenAtClose(states: seq<State>, actions: seq<Action>, signals: set<nat>, k: nat, i: nat)
    requires IsRun(states, actions, signals) && k < i < |states| && actions[k] == Take(Closer)
    ensures states[i].closedAt == states[k].accepted && (states[i].closing == Last || states[i].closing == Ended)
  {
    RunLength(states, actions, signals);
    hide IsRun, Do, Enabled, TakeAll;
    var before := i - 1;
    RunStep(states, actions, signals, before);
    assert states[i] == Do(states[before], actions[before]);
    if k == before {
      TakesLast(states[before]);
    } else {
      TakenAtClose(states, actions, signals, k, before);
      ClosedForGood(states[before], actions[before]);
    }
  }

  lemma {:induction false} RunLength(states: seq<State>, actions: seq<Action>, signals: set<nat>)
    requires IsRun(states, actions, signals)
    ensures |states| == |actions| + 1
  {
  }

  lemma {:induction false} TakesLast(s: State)
    requires Enabled(s, Take(Closer))
    ensures Do(s, Take(Closer)).closedAt == s.accepted && Do(s, Take(Closer)).closing == Last
  {
  }

  ghost predicate StoreFails(s: State, a: Action) {
    a == WriteNext(false) && s.flight.Some? && s.flight.value.who == Writer
  }

  lemma {:induction false} FailsOnlyThere(s: State, a: Action)
    requires Enabled(s, a)
    ensures var t := Do(s, a); t.failing || t.failed <==> s.failing || s.failed || StoreFails(s, a)
  {
    hide Write;
    if a.WriteNext? && a.ok { WriteMoves(s); }
  }

  /** The recording ends exactly when the store fails a write of the writer thread's own: not one of a
      caller's flush, nor of the close. */
  lemma {:induction false} FailsIff(states: seq<State>, actions: seq<Action>, signals: set<nat>, i: nat)
    requires IsRun(states, actions, signals) && i < |states|
    ensures states[i].failing || states[i].failed <==> exists k :: 0 <= k < i && StoreFails(states[k], actions[k])
  {
    RunLength(states, actions, signals);
    if i > 0 {
      hide IsRun, Do, Enabled, StoreFails;
      RunStep(states, actions, signals, i - 1);
      FailsIff(states, actions, signals, i - 1);
      FailsOnlyThere(states[i - 1], actions[i - 1]);
      if StoreFails(states[i - 1], actions[i - 1]) {
        assert exists k :: 0 <= k < i && StoreFails(states[k], actions[k]);
      }
    }
  }

  /** A write that fails loses what was taken, and only that: it ends the close if it was the close's own. */
  lemma {:induction false} FailureLosesTheFlight(s: State)
    requires Enabled(s, WriteNext(false))
    ensures var (t, who) := (Do(s, WriteNext(false)), s.flight.value.who);
      && t.flight.None? && t.lost && t.written == s.written && t.buffer == s.buffer && t.declared == s.declared
      && (t.failing <==> s.failing || who == Writer) && t.closing == (if who == Closer then Ended else s.closing)
  {
  }

  function CallsLeft(s: State): nat {
    if s.flight.Some? then 1 + CallsIn(s.flight.value) else 0
  }

  function CallsIn(f: Flight): nat {
    |f.declared| + (if f.rows.samples != [] then 1 else 0) + (if f.rows.ticks != [] then 1 else 0)
    + |f.rows.states| + |f.rows.events|
  }

  lemma {:induction false} OneCallFewer(f: Flight)
    ensures NextCall(f) == Over || CallsIn(StillToWrite(f)) < CallsIn(f)
  {
  }

  /** How far a close has come: its stage, the writer thread, a failure to be noted, the calls in flight. */
  ghost predicate Nearer(t: State, s: State) {
    || (s.closing == Stopping && (t.closing == Last || t.closing == Ended))
    || (s.closing == Last && t.closing == Ended)
    || (t.closing == s.closing && s.threadAlive && !t.threadAlive)
    || (t.closing == s.closing && t.threadAlive == s.threadAlive && s.failing && !t.failing)
    || (t.closing == s.closing && t.threadAlive == s.threadAlive && t.failing == s.failing && CallsLeft(t) < CallsLeft(s))
  }

  /** A close that has begun can always go on, whatever the state it is found in, and each such step brings
      its end nearer: the calls in flight, the failure noted, the thread's end, the last flush, the end. */
  lemma {:induction false} CloseGoesOn(s: State) returns (a: Action)
    requires s.closing == Stopping || s.closing == Last
    ensures a in {WriteNext(true), NoteFailure, ThreadEnds, Take(Closer), EndClose}
    ensures Enabled(s, a) && Nearer(Do(s, a), s)
  {
    if s.flight.Some? {
      a := WriteNext(true);
      WriteLeavesFewer(s);
    } else if s.failing {
      a := NoteFailure;
    } else if s.closing == Last || (!s.threadAlive && s.failed) {
      a := EndClose;
    } else if s.threadAlive {
      a := ThreadEnds;
    } else {
      a := Take(Closer);
    }
  }

  lemma {:induction false} WriteLeavesFewer(s: State)
    requires s.flight.Some?
    ensures var t := Write(s);
      && CallsLeft(t) < CallsLeft(s)
      && t.closing == s.closing && t.threadAlive == s.threadAlive && t.failing == s.failing
  {
    hide Then, NextCall, StillToWrite, CallsIn;
    OneCallFewer(s.flight.value);
  }

  // Declared before they are carried.

  ghost predicate Carries(rows: seq<Row>, signals: set<nat>) {
    forall i :: 0 <= i < |rows| ==> rows[i].signals <= signals
  }

  function Told(s: seq<nat>): set<nat> {
    set x | x in s
  }

  function FlightDeclared(s: State): set<nat> {
    if s.flight.Some? then Told(s.flight.value.declared) else {}
  }

  ghost predicate Announced(s: State) {
    s.lost ||
    (&& s.published <= s.known + FlightDeclared(s) + Told(s.declared) + Told(s.declaring)
     && Carries(s.buffer.samples, s.known + FlightDeclared(s) + Told(s.declared))
     && Carries(InFlight(s).samples, s.known + FlightDeclared(s))
     && Carries(s.written.samples, s.known))
  }

  lemma {:induction false} KeptCarry(samples: seq<Row>, published: set<nat>)
    ensures Carries(Kept(samples, published), published)
    decreases |samples|
  {
    if samples != [] { KeptCarry(samples[1..], published); }
  }

  lemma {:induction false} CarryMore(rows: seq<Row>, more: seq<Row>, a: set<nat>, b: set<nat>)
    requires Carries(rows, a) && Carries(more, b)
    ensures Carries(rows + more, a + b)
  {
  }

  /** As the rig has it, nothing is recorded between the two halves of a `declare`. */
  predicate Serialised(s: State, a: Action) {
    a.Record? ==> s.declaring == []
  }

  lemma {:induction false} TellsNext(signal: nat, declared: seq<nat>, known: set<nat>)
    ensures (known + {signal}) + Told(declared) == known + Told([signal] + declared)
  {
  }

  lemma {:induction false} CarryAlike(rows: seq<Row>, a: set<nat>, b: set<nat>)
    requires Carries(rows, a) && a <= b
    ensures Carries(rows, b)
  {
  }

  lemma {:induction false} WriteKeepsAnnounced(s: State)
    requires Announced(s) && s.flight.Some?
    ensures Announced(Write(s))
  {
    hide Carries, Told, NextCall, StillToWrite;
    var f, t, g := s.flight.value, Write(s), StillToWrite(s.flight.value);
    CallMoves(f);
    NoneTold();
    if !s.lost {
      match NextCall(f)
      case Tell(signal) =>
        TellsNext(signal, g.declared, s.known);
        assert s.known + FlightDeclared(s) == t.known + FlightDeclared(t);
        CarryAlike(s.written.samples, s.known, t.known);
      case Put(rows) =>
        assert s.known + FlightDeclared(s) == s.known == t.known + FlightDeclared(t);
        CarryBoth(rows.samples, g.rows.samples, s.known);
        CarryBoth(s.written.samples, rows.samples, s.known);
      case Over =>
        assert s.known + FlightDeclared(s) == s.known == t.known + FlightDeclared(t);
    }
  }

  lemma {:induction false} NoneTold()
    ensures Told([]) == {} && forall k :: Carries([], k)
  {
  }

  lemma {:induction false} RecordKeepsAnnounced(s: State, samples: seq<Row>, more: Rows)
    requires Announced(s) && s.declaring == [] && more.samples == Kept(samples, s.published)
    ensures Announced(Accept(s, more))
  {
    KeptCarry(samples, s.published);
    var all := s.known + FlightDeclared(s) + Told(s.declared);
    if !s.lost {
      CarryMore(s.buffer.samples, more.samples, all, s.published);
      assert all + s.published == all;
    }
  }

  lemma {:induction false} StepKeepsAnnounced(s: State, a: Action)
    requires Announced(s) && Enabled(s, a) && Serialised(s, a) && (s.failed || s.failing ==> s.lost)
    ensures Announced(Do(s, a))
  {
    hide Write, Kept;
    match a
    case Record(samples, ticks, states) => RecordKeepsAnnounced(s, samples, Rows(Kept(samples, s.published), ticks, states, []));
    case AcceptEvent(event) => assert s.buffer.samples + [] == s.buffer.samples;
    case ShowNew(signals) =>
    case QueueNew =>
    case Take(who) =>
    case WriteNext(ok) => if ok { WriteKeepsAnnounced(s); }
    case NoteFailure =>
    case ThreadEnds =>
    case BeginClose =>
    case EndClose =>
  }

  lemma {:induction false} EveryRunAnnounces(states: seq<State>, actions: seq<Action>, signals: set<nat>, i: nat)
    requires IsRun(states, actions, signals) && i < |states|
    requires forall k :: 0 <= k < |actions| ==> Serialised(states[k], actions[k])
    ensures Announced(states[i])
  {
    if i > 0 {
      hide Announced, Complete, Enabled, Do, Serialised;
      EveryRunAnnounces(states, actions, signals, i - 1);
      EveryRunIsComplete(states, actions, signals, i - 1);
      StepKeepsAnnounced(states[i - 1], actions[i - 1]);
    }
  }

  /** The store is never given a sample that carries a signal it has not been told of. */
  lemma {:induction false} DeclaredBeforeWritten(states: seq<State>, actions: seq<Action>, signals: set<nat>, i: nat)
    requires IsRun(states, actions, signals) && i < |states| && !states[i].lost && states[i].flight.Some?
    requires forall k :: 0 <= k < |actions| ==> Serialised(states[k], actions[k])
    ensures var f := states[i].flight.value;
      f.declared == [] ==> forall k :: 0 <= k < |f.rows.samples| ==> f.rows.samples[k].signals <= states[i].known
  {
    EveryRunAnnounces(states, actions, signals, i);
    var f := states[i].flight.value;
    if f.declared == [] { assert states[i].known + Told(f.declared) == states[i].known; }
  }

  lemma {:induction false} KeptCarryIff(samples: seq<Row>, published: set<nat>, told: set<nat>)
    ensures Carries(Kept(samples, published), told)
       <==> forall i :: 0 <= i < |samples| ==> samples[i].signals * published <= told
    decreases |samples|
  {
    hide Carries;
    if samples == [] {
      NoneTold();
    } else {
      var seen, rest := samples[0].signals * published, Kept(samples[1..], published);
      KeptCarryIff(samples[1..], published, told);
      if seen == {} { assert [] + rest == rest; }
      CarryBoth([Row(samples[0].id, seen)], rest, told);
      CarryOne(Row(samples[0].id, seen), told);
      assert forall i :: 1 <= i < |samples| ==> samples[i] == samples[1..][i - 1];
      assert forall i :: 0 <= i < |samples[1..]| ==> samples[1..][i] == samples[i + 1];
    }
  }

  lemma {:induction false} CarryBoth(a: seq<Row>, b: seq<Row>, signals: set<nat>)
    ensures Carries(a + b, signals) <==> Carries(a, signals) && Carries(b, signals)
  {
    assert forall i :: 0 <= i < |a| ==> (a + b)[i] == a[i];
    assert forall i :: 0 <= i < |b| ==> (a + b)[|a| + i] == b[i];
  }

  lemma {:induction false} CarryOne(row: Row, signals: set<nat>)
    ensures Carries([row], signals) <==> row.signals <= signals
  {
    assert [row][0] == row;
  }

  /** Without that, what one `record` does is announced exactly when no sample of it carries a signal that
      is shown but not yet queued to be declared. */
  lemma {:induction false} AnnouncedIff(s: State, samples: seq<Row>, ticks: seq<nat>, states: seq<nat>)
    requires Announced(s) && !s.lost && !s.failed
    ensures Announced(Do(s, Record(samples, ticks, states))) <==>
      forall i :: 0 <= i < |samples| ==>
        samples[i].signals * s.published <= s.known + FlightDeclared(s) + Told(s.declared)
  {
    hide Carries, Kept, Told;
    var told := s.known + FlightDeclared(s) + Told(s.declared);
    KeptCarryIff(samples, s.published, told);
    CarryBoth(s.buffer.samples, Kept(samples, s.published), told);
  }

  /** And it happens, in a recorder just opened: a sample recorded between the halves of a `declare`, a
      flush before the second, and the store has a signal it was never told of. */
  lemma {:induction false} UnserialisedIsNot() returns (states: seq<State>, actions: seq<Action>)
    ensures IsRun(states, actions, {}) && |actions| == 4
    ensures actions[0] == ShowNew([0]) && forall i :: 0 <= i < 4 ==> actions[i] != QueueNew
    ensures !states[4].lost && states[4].known == {} && states[4].written.samples == [Row(0, {0})]
  {
    var row, s0 := Row(0, {0}), Opened({});
    var a0, a1, a2, a3 := ShowNew([0]), Record([row], [], []), Take(Caller(0)), WriteNext(true);
    actions := [a0, a1, a2, a3];
    assert Unseen([0], {}) == [0];
    var s1 := Do(s0, a0);
    assert s1.published == {0};
    assert Kept([row], {0}) == [row] by { assert row.signals * {0} == {0}; }
    var s2 := Do(s1, a1);
    var s3 := Do(s2, a2);
    var s4 := Do(s3, a3);
    states := [s0, s1, s2, s3, s4];
  }

  // The code, updating its fields in place, against the steps above.

  class Recorder {
    var published: set<nat>
    var samples: seq<Row>
    var ticks: seq<nat>
    var states: seq<nat>
    var events: seq<nat>
    var declared: seq<nat>
    var failed: bool
    ghost var rest: State

    constructor (signals: set<nat>)
      ensures View() == Opened(signals)
    {
      published := signals;
      samples, ticks, states, events, declared, failed := [], [], [], [], [], false;
      rest := Opened(signals);
    }

    /** What the object holds, and beside it what the other threads and the store do. */
    ghost function View(): State
      reads this
    {
      rest.(published := published, buffer := Rows(samples, ticks, states, events), declared := declared, failed := failed)
    }

    method Record(delivered: seq<Row>, stepped: seq<nat>, written: seq<nat>)
      modifies this
      ensures View() == Do(old(View()), Action.Record(delivered, stepped, written))
    {
      if failed { return; }
      var kept: seq<Row> := [];
      var i := 0;
      assert delivered[0..] == delivered;
      while i < |delivered|
        invariant i <= |delivered| && kept + Kept(delivered[i..], published) == Kept(delivered, published)
        invariant View() == old(View())
      {
        var row := delivered[i];
        assert delivered[i..][0] == row && delivered[i..][1..] == delivered[i + 1..];
        var seen := row.signals * published;
        ghost var later := Kept(delivered[i + 1..], published);
        if seen != {} {
          assert kept + ([Row(row.id, seen)] + later) == (kept + [Row(row.id, seen)]) + later;
          kept := kept + [Row(row.id, seen)];
        } else {
          assert [] + later == later;
        }
        i := i + 1;
      }
      assert kept + [] == kept;
      samples := samples + kept;
      ticks := ticks + stepped;
      states := states + written;
      rest := rest.(accepted := Then(rest.accepted, Rows(kept, stepped, written, [])));
      assert events + [] == events;
    }

    method Event(event: nat)
      modifies this
      ensures View() == Do(old(View()), AcceptEvent(event))
    {
      if failed { return; }
      events := events + [event];
      rest := rest.(accepted := Then(rest.accepted, Rows([], [], [], [event])));
      assert samples + [] == samples && ticks + [] == ticks && states + [] == states;
    }

    /** The buffers swapped for empty ones, and what was in them. */
    method TakeBuffers(ghost who: Who) returns (taken: Rows, news: seq<nat>)
      requires Enabled(View(), Take(who))
      modifies this
      ensures View() == Do(old(View()), Take(who)) && View().flight == Some(Flight(who, news, taken))
    {
      rest := TakeAll(View(), who);
      taken, news := Rows(samples, ticks, states, events), declared;
      samples, ticks, states, events, declared := [], [], [], [], [];
    }

    method Fail()
      requires Enabled(View(), NoteFailure)
      modifies this
      ensures View() == Do(old(View()), NoteFailure)
    {
      failed := true;
      samples, ticks, states, events, declared := [], [], [], [], [];
      rest := rest.(failing := false);
    }
  }
}
