/** Simulated time (`sim/src/flyball_sim/clock.py`): a clock that moves only when told to, running
    whatever is due on the way.

    The heap is kept as the order it pops in. A callback is what it does to the clock; the n-th call
    made does `calls(n)`, so any callbacks at all are some such function. */
module Clock {
  datatype Entry = Entry(due: int, handle: nat, period: nat)

  datatype Clock = Clock(elapsed: int, due: seq<Entry>, handles: nat, advancing: bool)

  datatype Op = Schedule(period: real) | Cancel(handle: nat) | Raise

  datatype Firing = Firing(time: int, handle: nat)

  // Nanoseconds from seconds: Python's round, half to even.

  function Round(x: real): int {
    var low := x.Floor;
    var part := x - low as real;
    if part < 0.5 || (part == 0.5 && low % 2 == 0) then low else low + 1
  }

  function Nanoseconds(seconds: real): int {
    Round(seconds * 1_000_000_000.0)
  }

  lemma {:induction false} RoundIsNearest(x: real, n: int)
    ensures -0.5 <= Round(x) as real - x <= 0.5
    ensures x <= n as real ==> Round(x) <= n
    ensures n as real <= x ==> n <= Round(x)
  {
  }

  /** A period is at least a nanosecond exactly when it is more than half of one. */
  lemma {:induction false} PeriodSurvivesRounding(period: real)
    requires period > 0.0
    ensures Nanoseconds(period) >= 0
    ensures Nanoseconds(period) >= 1 <==> period * 1_000_000_000.0 > 0.5
  {
  }

  /** The nearest whole number of nanoseconds, and of two as near the even one. */
  lemma {:induction false} NanosecondsAreNearest(seconds: real)
    ensures var n := Nanoseconds(seconds) as real;
      && seconds * 1_000_000_000.0 - 0.5 <= n <= seconds * 1_000_000_000.0 + 0.5
      && (n == seconds * 1_000_000_000.0 - 0.5 || n == seconds * 1_000_000_000.0 + 0.5 ==> Nanoseconds(seconds) % 2 == 0)
  {
    RoundsHalfToEven(seconds * 1_000_000_000.0);
  }

  lemma {:induction false} RoundsHalfToEven(x: real)
    ensures x - 0.5 <= Round(x) as real <= x + 0.5
    ensures Round(x) as real == x - 0.5 || Round(x) as real == x + 0.5 ==> Round(x) % 2 == 0
  {
    var low := x.Floor;
    assert low as real <= x < low as real + 1.0;
  }

  // The queue, in the order the heap pops it.

  predicate Before(a: Entry, b: Entry) {
    a.due < b.due || (a.due == b.due && a.handle < b.handle)
  }

  function Insert(s: seq<Entry>, e: Entry): seq<Entry> {
    if s == [] || Before(e, s[0]) then [e] + s else [s[0]] + Insert(s[1..], e)
  }

  function Without(s: seq<Entry>, handle: nat): seq<Entry> {
    if s == [] then []
    else if s[0].handle == handle then Without(s[1..], handle)
    else [s[0]] + Without(s[1..], handle)
  }

  ghost predicate Ordered(s: seq<Entry>) {
    forall i, j :: 0 <= i < j < |s| ==> Before(s[i], s[j]) && s[i].handle != s[j].handle
  }

  ghost predicate Valid(c: Clock) {
    Ordered(c.due) && forall e :: e in c.due ==> e.handle <= c.handles
  }

  ghost predicate Moving(s: seq<Entry>) {
    forall e :: e in s ==> e.period >= 1
  }

  lemma {:induction false} InsertAdds(s: seq<Entry>, e: Entry)
    ensures |Insert(s, e)| == |s| + 1
    ensures forall x :: x in Insert(s, e) <==> x == e || x in s
    decreases |s|
  {
    if s == [] || Before(e, s[0]) {
    } else {
      InsertAdds(s[1..], e);
    }
  }

  lemma {:induction false} InsertKeepsOrder(s: seq<Entry>, e: Entry)
    requires Ordered(s) && (forall x :: x in s ==> x.handle != e.handle)
    ensures Ordered(Insert(s, e))
    decreases |s|
  {
    if s == [] || Before(e, s[0]) {
    } else {
      InsertKeepsOrder(s[1..], e);
      InsertAdds(s[1..], e);
      var rest := Insert(s[1..], e);
      forall j | 0 <= j < |rest| ensures Before(s[0], rest[j]) && s[0].handle != rest[j].handle {
        assert rest[j] in rest;
      }
    }
  }

  lemma {:induction false} WithoutRemoves(s: seq<Entry>, handle: nat)
    ensures forall x :: x in Without(s, handle) <==> x in s && x.handle != handle
    ensures Ordered(s) ==> Ordered(Without(s, handle))
    decreases |s|
  {
    if s != [] {
      WithoutRemoves(s[1..], handle);
      var rest := Without(s[1..], handle);
      if Ordered(s) {
        forall j | 0 <= j < |rest| ensures Before(s[0], rest[j]) && s[0].handle != rest[j].handle {
        }
      }
    }
  }

  // What a callback can do to the clock, and one turn of the loop.

  function Place(c: Clock, period: nat): Clock {
    c.(handles := c.handles + 1, due := Insert(c.due, Entry(c.elapsed + period, c.handles + 1, period)))
  }

  /** What is done is done, up to an exception. */
  function Do(c: Clock, ops: seq<Op>): (Clock, bool)
    decreases |ops|
  {
    if ops == [] then (c, true)
    else match ops[0]
      case Schedule(period) =>
        if period <= 0.0 then (c, false)
        else
          PeriodSurvivesRounding(period);
          Do(Place(c, Nanoseconds(period)), ops[1..])
      case Cancel(handle) => Do(c.(due := Without(c.due, handle)), ops[1..])
      case Raise => (c, false)
  }

  function Pop(c: Clock): Clock
    requires c.due != []
  {
    var e := c.due[0];
    c.(elapsed := e.due, due := Insert(c.due[1..], e.(due := e.due + e.period)))
  }

  ghost predicate Keeps(ops: seq<Op>) {
    forall i :: 0 <= i < |ops| && ops[i].Schedule? && ops[i].period > 0.0 ==> Nanoseconds(ops[i].period) >= 1
  }

  /** Scheduling adds one entry, under a handle not used before: due a period from now, and every period
      after, in whole nanoseconds. A period that is not positive is refused, and the rest not done. */
  lemma {:induction false} SchedulesAhead(c: Clock, period: real, x: Entry)
    requires Valid(c)
    ensures var (c', ok) := Do(c, [Schedule(period)]);
      && (ok <==> period > 0.0) && (!ok ==> c' == c)
      && (ok ==>
            && c'.elapsed == c.elapsed && c'.handles == c.handles + 1
            && (forall e :: e in c.due ==> e.handle < c'.handles)
            && (x in c'.due <==> x in c.due || (x.handle == c'.handles && x.due == c.elapsed + x.period && x.period == Nanoseconds(period))))
  {
    hide Nanoseconds, Insert;
    if period > 0.0 {
      PeriodSurvivesRounding(period);
      InsertAdds(c.due, Entry(c.elapsed + Nanoseconds(period), c.handles + 1, Nanoseconds(period)));
      NothingMore(Place(c, Nanoseconds(period)));
      assert [Schedule(period)][1..] == [];
    }
  }

  lemma {:induction false} NothingMore(c: Clock)
    ensures Do(c, []) == (c, true)
  {
  }

  /** Cancelling takes out what has that handle, and nothing else. */
  lemma {:induction false} CancelsOne(c: Clock, handle: nat, x: Entry)
    ensures var (c', ok) := Do(c, [Cancel(handle)]);
      && ok && c'.elapsed == c.elapsed && c'.handles == c.handles
      && (x in c'.due <==> x in c.due && x.handle != handle)
  {
    hide Without;
    WithoutRemoves(c.due, handle);
    NothingMore(c.(due := Without(c.due, handle)));
    assert [Cancel(handle)][1..] == [];
  }

  /** Nothing a callback does puts an entry at or before the instant it runs at. */
  lemma {:induction false} DoLooksAhead(c: Clock, ops: seq<Op>)
    requires Valid(c) && Moving(c.due) && Keeps(ops)
    ensures var c' := Do(c, ops).0;
      && Valid(c') && Moving(c'.due) && c'.elapsed == c.elapsed && c'.advancing == c.advancing
      && (forall e :: e in c'.due ==> e in c.due || e.due > c.elapsed)
    decreases |ops|
  {
    hide Nanoseconds;
    if ops != [] {
      match ops[0]
      case Schedule(period) =>
        if period > 0.0 {
          var e := Entry(c.elapsed + Nanoseconds(period), c.handles + 1, Nanoseconds(period));
          InsertAdds(c.due, e);
          InsertKeepsOrder(c.due, e);
          DoLooksAhead(Place(c, Nanoseconds(period)), ops[1..]);
        }
      case Cancel(handle) =>
        WithoutRemoves(c.due, handle);
        DoLooksAhead(c.(due := Without(c.due, handle)), ops[1..]);
      case Raise =>
    }
  }

  /** One turn: the head goes on by its period, and everything left is after it. */
  lemma {:induction false} TurnGoesOn(c: Clock, ops: seq<Op>)
    requires Valid(c) && Moving(c.due) && Keeps(ops) && c.due != []
    ensures var c' := Do(Pop(c), ops).0;
      && Valid(c') && Moving(c'.due) && c'.advancing == c.advancing
      && (forall e :: e in c'.due ==> Before(c.due[0], e) && (e in c.due || e.due > c.due[0].due))
  {
    hide Do, Insert;
    var e := c.due[0];
    var next := e.(due := e.due + e.period);
    InsertAdds(c.due[1..], next);
    InsertKeepsOrder(c.due[1..], next);
    DoLooksAhead(Pop(c), ops);
  }

  ghost function DueAt(s: seq<Entry>, time: int): set<nat> {
    set e | e in s && e.due == time :: e.handle
  }

  ghost function Left(s: seq<Entry>, target: int): nat {
    if s == [] || s[0].due > target then 0 else target - s[0].due + 1
  }

  ghost function Ties(s: seq<Entry>): nat {
    if s == [] then 0 else |DueAt(s, s[0].due)|
  }

  lemma {:induction false} TurnDescends(c: Clock, ops: seq<Op>, target: int)
    requires Valid(c) && Moving(c.due) && Keeps(ops) && c.due != [] && c.due[0].due <= target
    ensures var s := Do(Pop(c), ops).0.due;
      Left(s, target) < Left(c.due, target) || (Left(s, target) == Left(c.due, target) && Ties(s) < Ties(c.due))
  {
    hide Do, Pop;
    TurnGoesOn(c, ops);
    var s := Do(Pop(c), ops).0.due;
    var head := c.due[0];
    if s != [] && s[0].due == head.due {
      assert s[0] in s;
      forall h | h in DueAt(s, head.due) ensures h in DueAt(c.due, head.due) && h != head.handle {
        var e :| e in s && e.due == head.due && e.handle == h;
        assert e in c.due && Before(head, e);
      }
      assert head in c.due;
      assert DueAt(s, head.due) <= DueAt(c.due, head.due) - {head.handle};
      Smaller(DueAt(s, head.due), DueAt(c.due, head.due), head.handle);
    } else if s != [] {
      assert s[0] in s;
    }
  }

  lemma {:induction false} Smaller(a: set<nat>, b: set<nat>, x: nat)
    requires x in b && a <= b - {x}
    ensures |a| < |b|
  {
    Subset(a, b - {x});
  }

  lemma {:induction false} Subset(a: set<nat>, b: set<nat>)
    requires a <= b
    ensures |a| <= |b|
  {
    assert b == a + (b - a);
  }

  // Running everything due by `target`.

  datatype Fired = Fired(log: seq<Firing>, clock: Clock, raised: bool)

  ghost predicate Steady(calls: nat -> seq<Op>) {
    forall n :: Keeps(calls(n))
  }

  ghost function Fire(c: Clock, target: int, calls: nat -> seq<Op>, n: nat): Fired
    requires Valid(c) && Moving(c.due) && Steady(calls)
    decreases Left(c.due, target), Ties(c.due)
  {
    if c.due == [] || c.due[0].due > target then Fired([], c, false)
    else
      var (next, ok) := Do(Pop(c), calls(n));
      var first := Firing(c.due[0].due, c.due[0].handle);
      assert Keeps(calls(n));
      TurnGoesOn(c, calls(n));
      TurnDescends(c, calls(n), target);
      if !ok then Fired([first], next, true)
      else
        var rest := Fire(next, target, calls, n + 1);
        Fired([first] + rest.log, rest.clock, rest.raised)
  }

  predicate Earlier(a: Firing, b: Firing) {
    a.time < b.time || (a.time == b.time && a.handle < b.handle)
  }

  /** Whatever the callbacks do to the schedule, calls come in strict (time, handle) order, none past
      the target, and, unless one raised, nothing due by the target is left. */
  lemma {:induction false} FiresInOrder(c: Clock, target: int, calls: nat -> seq<Op>, n: nat)
    requires Valid(c) && Moving(c.due) && Steady(calls)
    ensures var f := Fire(c, target, calls, n);
      && Valid(f.clock) && Moving(f.clock.due) && f.clock.advancing == c.advancing
      && (forall i, j :: 0 <= i < j < |f.log| ==> Earlier(f.log[i], f.log[j]))
      && (forall i :: 0 <= i < |f.log| ==> f.log[i].time <= target)
      && (f.log != [] ==> c.due != [] && f.log[0] == Firing(c.due[0].due, c.due[0].handle))
      && (!f.raised ==> forall e :: e in f.clock.due ==> e.due > target)
      && (f.raised ==> f.log != [] && f.clock.elapsed == f.log[|f.log| - 1].time)
    decreases Left(c.due, target), Ties(c.due)
  {
    hide Pop, Do, Steady, Left, Ties, Fire;
    FireTurn(c, target, calls, n);
    if c.due == [] {
    } else if c.due[0].due > target {
      forall e | e in c.due ensures e.due > target {
        var i :| 0 <= i < |c.due| && c.due[i] == e;
        assert i > 0 ==> Before(c.due[0], c.due[i]);
      }
    } else {
      SteadyAt(calls, n);
      TurnGoesOn(c, calls(n));
      TurnDescends(c, calls(n), target);
      DoneAt(Pop(c), calls(n));
      PopAt(c);
      var next := Do(Pop(c), calls(n)).0;
      if Do(Pop(c), calls(n)).1 {
        FiresInOrder(next, target, calls, n + 1);
        var rest := Fire(next, target, calls, n + 1);
        if rest.log != [] { assert next.due[0] in next.due; }
      }
    }
  }

  lemma {:induction false} SteadyAt(calls: nat -> seq<Op>, n: nat)
    requires Steady(calls)
    ensures Keeps(calls(n))
  {
  }

  lemma {:induction false} PopAt(c: Clock)
    requires c.due != []
    ensures Pop(c).elapsed == c.due[0].due
  {
  }

  lemma {:induction false} DoneAt(c: Clock, ops: seq<Op>)
    ensures Do(c, ops).0.elapsed == c.elapsed
    decreases |ops|
  {
    hide Nanoseconds;
    if ops != [] {
      match ops[0]
      case Schedule(period) =>
        if period > 0.0 {
          PeriodSurvivesRounding(period);
          DoneAt(Place(c, Nanoseconds(period)), ops[1..]);
        }
      case Cancel(handle) => DoneAt(c.(due := Without(c.due, handle)), ops[1..]);
      case Raise =>
    }
  }

  ghost function Then(f: Fired, target: int, calls: nat -> seq<Op>, n: nat): Fired
    requires Valid(f.clock) && Moving(f.clock.due) && Steady(calls)
  {
    if f.raised then f
    else
      var g := Fire(f.clock, target, calls, n + |f.log|);
      Fired(f.log + g.log, g.clock, g.raised)
  }

  /** Stopping on the way changes neither what is called nor the schedule left behind. */
  lemma {:induction false} FireSplits(c: Clock, mid: int, target: int, calls: nat -> seq<Op>, n: nat)
    requires Valid(c) && Moving(c.due) && Steady(calls) && mid <= target
    ensures var f := Fire(c, mid, calls, n);
      && Valid(f.clock) && Moving(f.clock.due)
      && Fire(c, target, calls, n) == Then(f, target, calls, n)
    decreases Left(c.due, mid), Ties(c.due)
  {
    hide Pop, Do, Steady, Left, Ties, Fire;
    FiresInOrder(c, mid, calls, n);
    FireTurn(c, mid, calls, n);
    FireTurn(c, target, calls, n);
    if c.due == [] || c.due[0].due > mid {
      assert [] + Fire(c, target, calls, n).log == Fire(c, target, calls, n).log;
    } else {
      SteadyAt(calls, n);
      TurnGoesOn(c, calls(n));
      TurnDescends(c, calls(n), mid);
      var next := Do(Pop(c), calls(n)).0;
      if Do(Pop(c), calls(n)).1 {
        FireSplits(next, mid, target, calls, n + 1);
        var first := Firing(c.due[0].due, c.due[0].handle);
        var rest := Fire(next, mid, calls, n + 1);
        var g := Fire(rest.clock, target, calls, n + 1 + |rest.log|);
        assert ([first] + rest.log) + g.log == [first] + (rest.log + g.log);
      }
    }
  }

  /** One turn of the loop. */
  lemma {:induction false} FireTurn(c: Clock, target: int, calls: nat -> seq<Op>, n: nat)
    requires Valid(c) && Moving(c.due) && Steady(calls)
    ensures var f := Fire(c, target, calls, n);
      if c.due == [] || c.due[0].due > target then f == Fired([], c, false)
      else
        var (next, ok) := Do(Pop(c), calls(n));
        var first := Firing(c.due[0].due, c.due[0].handle);
        && Valid(next) && Moving(next.due)
        && if !ok then f == Fired([first], next, true)
           else
             var rest := Fire(next, target, calls, n + 1);
             f == Fired([first] + rest.log, rest.clock, rest.raised)
  {
    hide Pop, Do, Left, Ties;
    if c.due != [] {
      SteadyAt(calls, n);
      TurnGoesOn(c, calls(n));
    }
  }

  // Callbacks that leave the schedule alone: every entry's calls, exactly.

  function Quiet(n: nat): seq<Op> {
    []
  }

  function Times(e: Entry, target: int): seq<int>
    requires e.period >= 1
    decreases target - e.due
  {
    if e.due > target then [] else [e.due] + Times(e.(due := e.due + e.period), target)
  }

  /** Every period from the first due time, up to and including the target. */
  lemma {:induction false} TimesAreMultiples(e: Entry, target: int)
    requires e.period >= 1
    ensures forall k :: 0 <= k < |Times(e, target)| ==> Times(e, target)[k] == e.due + k * e.period <= target
    ensures e.due <= target ==> e.due + (|Times(e, target)| - 1) * e.period <= target
    ensures e.due + |Times(e, target)| * e.period > target
    decreases target - e.due
  {
    if e.due <= target {
      var next := e.(due := e.due + e.period);
      TimesAreMultiples(next, target);
      var rest := Times(next, target);
      forall k | 0 <= k < |rest| + 1 ensures Times(e, target)[k] == e.due + k * e.period <= target {
        if k > 0 { assert rest[k - 1] == next.due + (k - 1) * e.period; }
      }
      assert next.due + |rest| * e.period == e.due + (|rest| + 1) * e.period;
    }
  }

  lemma {:induction false} QuietPops(c: Clock, n: nat)
    requires Valid(c) && Moving(c.due) && c.due != []
    ensures var head := c.due[0];
      var next := Pop(c);
      && Do(next, Quiet(n)) == (next, true)
      && (forall e :: e in next.due <==> e == head.(due := head.due + head.period) || e in c.due[1..])
  {
    InsertAdds(c.due[1..], c.due[0].(due := c.due[0].due + c.due[0].period));
  }

  lemma {:induction false} HeadFirst(c: Clock, e: Entry)
    requires Valid(c) && e in c.due
    ensures c.due[0] == e || (e in c.due[1..] && Before(c.due[0], e) && e.handle != c.due[0].handle)
  {
  }

  /** Where an entry stands once everything due by the target has been called. */
  function MovedOn(e: Entry, target: int): Entry
    requires e.period >= 1
  {
    e.(due := e.due + |Times(e, target)| * e.period)
  }

  ghost predicate Calls(e: Entry, target: int, x: Firing)
    requires e.period >= 1
  {
    x.handle == e.handle && x.time in Times(e, target)
  }

  lemma {:induction false} OneCall(e: Entry, target: int, x: Firing)
    requires e.period >= 1 && e.due <= target
    ensures var on := e.(due := e.due + e.period);
      && MovedOn(on, target) == MovedOn(e, target)
      && (Calls(e, target, x) <==> x == Firing(e.due, e.handle) || Calls(on, target, x))
  {
    var on := e.(due := e.due + e.period);
    assert on.due + |Times(on, target)| * e.period == e.due + (1 + |Times(on, target)|) * e.period;
  }

  lemma {:induction false} NoCall(e: Entry, target: int, x: Firing)
    requires e.period >= 1 && e.due > target
    ensures MovedOn(e, target) == e && !Calls(e, target, x)
  {
    assert e.due + 0 * e.period == e.due;
  }

  ghost predicate SomeCalls(s: seq<Entry>, target: int, x: Firing)
    requires Moving(s)
  {
    exists e :: e in s && Calls(e, target, x)
  }

  ghost predicate SomeMoves(s: seq<Entry>, target: int, x: Entry)
    requires Moving(s)
  {
    exists e :: e in s && MovedOn(e, target) == x
  }

  lemma {:induction false} TurnCalls(c: Clock, target: int, x: Firing, y: Entry)
    requires Valid(c) && Moving(c.due) && c.due != [] && c.due[0].due <= target && Moving(Pop(c).due)
    ensures SomeCalls(c.due, target, x) <==> x == Firing(c.due[0].due, c.due[0].handle) || SomeCalls(Pop(c).due, target, x)
    ensures SomeMoves(c.due, target, y) <==> SomeMoves(Pop(c).due, target, y)
  {
    hide Calls, MovedOn, Pop, Valid;
    var head := c.due[0];
    var on := head.(due := head.due + head.period);
    QuietPops(c, 0);
    OneCall(head, target, x);
    assert c.due == [head] + c.due[1..];
    assert on in Pop(c).due && head in c.due;
    if e :| e in c.due && Calls(e, target, x) {
      if e == head { assert SomeCalls(Pop(c).due, target, x) || x == Firing(head.due, head.handle); } else { assert e in Pop(c).due; }
    }
    if e :| e in Pop(c).due && Calls(e, target, x) {
      if e == on { assert Calls(head, target, x); } else { assert e in c.due; }
    }
    if e :| e in c.due && MovedOn(e, target) == y {
      if e == head { assert MovedOn(on, target) == y; } else { assert e in Pop(c).due; }
    }
    if e :| e in Pop(c).due && MovedOn(e, target) == y {
      if e == on { assert MovedOn(head, target) == y; } else { assert e in c.due; }
    }
  }

  lemma {:induction false} NoneDue(c: Clock, target: int, x: Firing, y: Entry)
    requires Valid(c) && Moving(c.due) && (c.due == [] || c.due[0].due > target)
    ensures !SomeCalls(c.due, target, x)
    ensures SomeMoves(c.due, target, y) <==> y in c.due
  {
    hide Calls, MovedOn;
    forall e | e in c.due ensures MovedOn(e, target) == e && !Calls(e, target, x) {
      HeadFirst(c, e);
      NoCall(e, target, x);
    }
  }

  /** For callbacks that leave the schedule alone: what is called is each entry at each of its times up to
      the target and nothing else, in the one order there is (`OneOrder`), and what is left is each entry
      moved on past them and nothing else. */
  lemma {:induction false} QuietFiresExactly(c: Clock, target: int, n: nat, x: Firing, y: Entry)
    requires Valid(c) && Moving(c.due)
    ensures var f := Fire(c, target, Quiet, n);
      && !f.raised && f.clock.handles == c.handles && |f.clock.due| == |c.due|
      && (x in f.log <==> SomeCalls(c.due, target, x))
      && (y in f.clock.due <==> SomeMoves(c.due, target, y))
      && InSequence(f.log)
    decreases Left(c.due, target), Ties(c.due)
  {
    assert Steady(Quiet);
    hide Left, Ties, Steady, Pop, Do, Valid, Moving, Keeps, SomeCalls, SomeMoves, Fire;
    FiresInOrder(c, target, Quiet, n);
    FireTurn(c, target, Quiet, n);
    if c.due == [] || c.due[0].due > target {
      NoneDue(c, target, x, y);
    } else {
      SteadyAt(Quiet, n);
      TurnGoesOn(c, Quiet(n));
      TurnDescends(c, Quiet(n), target);
      QuietPops(c, n);
      PopSize(c);
      TurnCalls(c, target, x, y);
      QuietFiresExactly(Pop(c), target, n + 1, x, y);
    }
  }

  lemma {:induction false} PopSize(c: Clock)
    requires c.due != []
    ensures |Pop(c).due| == |c.due| && Pop(c).handles == c.handles
  {
    InsertAdds(c.due[1..], c.due[0].(due := c.due[0].due + c.due[0].period));
  }

  ghost predicate InSequence(log: seq<Firing>) {
    forall i, j :: 0 <= i < j < |log| ==> Earlier(log[i], log[j])
  }

  /** Calls in sequence are determined by what they are. */
  lemma {:induction false} OneOrder(a: seq<Firing>, b: seq<Firing>)
    requires InSequence(a) && InSequence(b) && forall x :: x in a <==> x in b
    ensures a == b
    decreases |a|
  {
    if a == [] {
      if b != [] { HasFirst(b); }
    } else if b == [] {
      HasFirst(a);
    } else {
      HasFirst(a);
      HasFirst(b);
      FirstIsLeast(a, b[0]);
      FirstIsLeast(b, a[0]);
      forall x ensures x in a[1..] <==> x in b[1..] { Tails(a, b, x); }
      OneOrder(a[1..], b[1..]);
    }
  }

  lemma {:induction false} FirstIsLeast(log: seq<Firing>, x: Firing)
    requires InSequence(log) && x in log
    ensures log[0] == x || Earlier(log[0], x)
  {
  }

  lemma {:induction false} HasFirst(log: seq<Firing>)
    requires log != []
    ensures log[0] in log
  {
  }

  lemma {:induction false} Tails(a: seq<Firing>, b: seq<Firing>, x: Firing)
    requires a != [] && b != [] && a[0] == b[0] && InSequence(a) && InSequence(b) && forall x :: x in a <==> x in b
    ensures x in a[1..] <==> x in b[1..]
  {
    if i :| 1 <= i < |a| && a[i] == x { assert Earlier(a[0], x) && x in b; }
    if i :| 1 <= i < |b| && b[i] == x { assert Earlier(b[0], x) && x in a; }
  }

  // `advance`, in seconds.

  datatype Reply = Moved(log: seq<Firing>) | Backwards | AlreadyAdvancing | Raised(log: seq<Firing>)

  ghost function Advanced(c: Clock, seconds: real, calls: nat -> seq<Op>, n: nat): (Clock, Reply)
    requires Valid(c) && Moving(c.due) && Steady(calls)
  {
    if seconds < 0.0 then (c, Backwards)
    else if c.advancing then (c, AlreadyAdvancing)
    else
      var target := c.elapsed + Nanoseconds(seconds);
      var f := Fire(c.(advancing := true), target, calls, n);
      if f.raised then (f.clock.(advancing := false), Raised(f.log))
      else (f.clock.(elapsed := target, advancing := false), Moved(f.log))
  }

  /** An advance that is not refused, and in which nothing raises, leaves the clock where it was sent: the
      nanoseconds nearest to the seconds further on; and it is refused for a negative time, and from within
      another. */
  lemma {:induction false} AdvanceArrives(c: Clock, seconds: real, calls: nat -> seq<Op>, n: nat)
    requires Valid(c) && Moving(c.due) && Steady(calls)
    ensures var (c', reply) := Advanced(c, seconds, calls, n);
      && (reply == Backwards <==> seconds < 0.0) && (reply == AlreadyAdvancing <==> seconds >= 0.0 && c.advancing)
      && (reply == Backwards || reply == AlreadyAdvancing ==> c' == c)
      && (seconds >= 0.0 && !c.advancing ==> !c'.advancing)
      && (reply.Moved? ==> c'.elapsed == c.elapsed + Nanoseconds(seconds))
  {
    hide Fire, Nanoseconds, Valid, Moving, Steady;
    if seconds >= 0.0 && !c.advancing { SameSchedule(c, c.(advancing := true)); }
  }

  /** Only the entries and the next handle decide what is called. */
  lemma {:induction false} ElapsedIsNotUsed(c: Clock, d: Clock, target: int, calls: nat -> seq<Op>, n: nat)
    requires Valid(c) && Moving(c.due) && Steady(calls) && d == c.(elapsed := d.elapsed)
    ensures Valid(d) && Moving(d.due)
    ensures var f, g := Fire(c, target, calls, n), Fire(d, target, calls, n);
      && f.log == g.log && f.raised == g.raised && f.clock.(elapsed := target) == g.clock.(elapsed := target)
      && (f.log != [] ==> f == g)
  {
  }

  predicate AddUp(a: real, b: real) {
    Nanoseconds(a) + Nanoseconds(b) == Nanoseconds(a + b)
  }

  /** Advancing by `a` and then by `b` makes the calls, and leaves the clock, that advancing by
      `a + b` does, exactly when the nanoseconds add up. */
  lemma {:induction false} AdvanceSplits(c: Clock, a: real, b: real, calls: nat -> seq<Op>, n: nat)
    requires Valid(c) && Moving(c.due) && Steady(calls) && !c.advancing && a >= 0.0 && b >= 0.0
    requires Advanced(c, a, calls, n).1.Moved?
    ensures var (c1, first) := Advanced(c, a, calls, n);
      && Valid(c1) && Moving(c1.due)
      && var (c2, second) := Advanced(c1, b, calls, n + |first.log|);
         var (c3, whole) := Advanced(c, a + b, calls, n);
         && (AddUp(a, b) ==> c2 == c3 && whole == second.(log := first.log + second.log))
         && (!AddUp(a, b) && second.Moved? && whole.Moved? ==> c2 != c3)
  {
    hide Fire, Nanoseconds, Valid, Moving, Steady;
    var began := c.(advancing := true);
    SameSchedule(c, began);
    var mid := c.elapsed + Nanoseconds(a);
    RoundIsNearest(b * 1_000_000_000.0, 0);
    NotBackwards(b);
    FiresInOrder(began, mid, calls, n);
    var f := Fire(began, mid, calls, n);
    var (c1, first) := Advanced(c, a, calls, n);
    SameSchedule(f.clock, c1);
    ElapsedIsNotUsed(f.clock, c1.(advancing := true), mid + Nanoseconds(b), calls, n + |f.log|);
    FireSplits(began, mid, mid + Nanoseconds(b), calls, n);
    FiresInOrder(c1.(advancing := true), mid + Nanoseconds(b), calls, n + |f.log|);
  }

  /** They need not: 0.4 ns twice leaves the clock where it was, and 0.8 ns at once moves it by one. */
  lemma {:induction false} TwiceIsNotOnce()
    ensures !AddUp(0.0000000004, 0.0000000004)
    ensures var c, a := Clock(0, [], 0, false), 0.0000000004;
      && Valid(c) && Moving(c.due)
      && Advanced(c, a, Quiet, 0) == (c, Moved([])) && Advanced(c, a + a, Quiet, 0) == (c.(elapsed := 1), Moved([]))
  {
    assert Nanoseconds(0.0000000004) == 0 && Nanoseconds(0.0000000008) == 1;
    assert 0.0000000004 + 0.0000000004 == 0.0000000008;
  }

  lemma {:induction false} SameSchedule(c: Clock, d: Clock)
    requires Valid(c) && Moving(c.due) && d == c.(elapsed := d.elapsed, advancing := d.advancing)
    ensures Valid(d) && Moving(d.due)
  {
  }

  lemma {:induction false} NotBackwards(seconds: real)
    requires seconds >= 0.0
    ensures Nanoseconds(seconds) >= 0
  {
  }

  // Whether the loop ends at all.

  function After(s: seq<Entry>, turns: nat): seq<Entry>
    decreases turns
  {
    if turns == 0 || s == [] then s else After(Insert(s[1..], s[0].(due := s[0].due + s[0].period)), turns - 1)
  }

  predicate StillDue(s: seq<Entry>, target: int) {
    s != [] && s[0].due <= target
  }

  /** How far an entry has yet to come; one that never moves is not counted. */
  function Lag(s: seq<Entry>, target: int): nat {
    if s == [] then 0 else (if s[0].due > target then 0 else target - s[0].due + 1) + Lag(s[1..], target)
  }

  lemma {:induction false} LagOfInsert(s: seq<Entry>, e: Entry, target: int)
    ensures Lag(Insert(s, e), target) == Lag(s, target) + Lag([e], target)
    decreases |s|
  {
    if s == [] || Before(e, s[0]) {
      assert ([e] + s)[1..] == s;
    } else {
      LagOfInsert(s[1..], e, target);
      assert ([s[0]] + Insert(s[1..], e))[1..] == Insert(s[1..], e);
    }
  }

  ghost predicate Stuck(s: seq<Entry>, target: int) {
    exists e :: e in s && e.period == 0 && e.due <= target
  }

  lemma {:induction false} StuckGoesOn(s: seq<Entry>, target: int)
    requires s != [] && Ordered(s) && StillDue(s, target)
    ensures var next := Insert(s[1..], s[0].(due := s[0].due + s[0].period));
      Ordered(next) && (Stuck(s, target) <==> Stuck(next, target))
  {
    var on := s[0].(due := s[0].due + s[0].period);
    var next := Insert(s[1..], on);
    InsertAdds(s[1..], on);
    InsertKeepsOrder(s[1..], on);
    assert s == [s[0]] + s[1..];
    if Stuck(s, target) {
      var e :| e in s && e.period == 0 && e.due <= target;
      assert e in next || on == e;
      assert e in next;
    }
    if Stuck(next, target) {
      var e :| e in next && e.period == 0 && e.due <= target;
      assert e in s;
    }
  }

  /** The loop ends exactly when nothing due by the target has a period of no nanoseconds. */
  lemma {:induction false} LoopEndsIff(s: seq<Entry>, target: int)
    requires Ordered(s)
    ensures (exists turns: nat :: !StillDue(After(s, turns), target)) <==> !Stuck(s, target)
  {
    if Stuck(s, target) {
      forall turns: nat ensures StillDue(After(s, turns), target) { StuckForEver(s, target, turns); }
    } else {
      var turns := FreeEnds(s, target);
    }
  }

  lemma {:induction false} StuckForEver(s: seq<Entry>, target: int, turns: nat)
    requires Ordered(s) && Stuck(s, target)
    ensures StillDue(After(s, turns), target)
    decreases turns
  {
    hide Stuck, Ordered, Insert;
    StuckIsDue(s, target);
    if turns > 0 {
      StuckGoesOn(s, target);
      StuckForEver(Insert(s[1..], s[0].(due := s[0].due + s[0].period)), target, turns - 1);
    }
  }

  lemma {:induction false} StuckIsDue(s: seq<Entry>, target: int)
    requires Ordered(s) && Stuck(s, target)
    ensures StillDue(s, target)
  {
    var e :| e in s && e.period == 0 && e.due <= target;
    var i :| 0 <= i < |s| && s[i] == e;
    assert i > 0 ==> Before(s[0], s[i]);
  }

  lemma {:induction false} FreeEnds(s: seq<Entry>, target: int) returns (turns: nat)
    requires Ordered(s) && !Stuck(s, target)
    ensures !StillDue(After(s, turns), target)
    decreases Lag(s, target)
  {
    turns := 0;
    if StillDue(s, target) {
      var on := s[0].(due := s[0].due + s[0].period);
      assert s[0].period > 0;
      StuckGoesOn(s, target);
      LagOfInsert(s[1..], on, target);
      var more := FreeEnds(Insert(s[1..], on), target);
      turns := more + 1;
    }
  }

  /** And a period that `schedule` accepts may be one of no nanoseconds. */
  lemma {:induction false} AcceptedButNone()
    ensures 0.0000000004 > 0.0 && Nanoseconds(0.0000000004) == 0
  {
  }

  // The code, updating its fields in place, against the functions above.

  class SteppedClock {
    var elapsed: int
    var due: seq<Entry>
    var handles: nat
    var advancing: bool

    constructor ()
      ensures View() == Clock(0, [], 0, false) && Valid(View())
    {
      elapsed, due, handles, advancing := 0, [], 0, false;
    }

    ghost function View(): Clock
      reads this
    {
      Clock(elapsed, due, handles, advancing)
    }

    /** `ok` is false for a period that is not positive: nothing is scheduled. */
    method Schedule(period: real) returns (ok: bool, handle: nat)
      modifies this
      ensures (View(), ok) == Do(old(View()), [Op.Schedule(period)])
      ensures ok ==> handle == handles
    {
      if period <= 0.0 { return false, 0; }
      PeriodSurvivesRounding(period);
      handles := handles + 1;
      var ns := Nanoseconds(period);
      due := Insert(due, Entry(elapsed + ns, handles, ns));
      assert View() == Place(old(View()), ns) && [Op.Schedule(period)][1..] == [];
      return true, handles;
    }

    method Cancel(handle: nat)
      modifies this
      ensures (View(), true) == Do(old(View()), [Op.Cancel(handle)])
    {
      due := Without(due, handle);
      assert [Op.Cancel(handle)][1..] == [];
    }

    /** A call the clock makes back into itself. */
    method Call(ops: seq<Op>) returns (ok: bool)
      modifies this
      ensures (View(), ok) == Do(old(View()), ops)
    {
      ok := true;
      var i := 0;
      while i < |ops| && ok
        invariant i <= |ops|
        invariant ok ==> Do(View(), ops[i..]) == Do(old(View()), ops)
        invariant !ok ==> (View(), false) == Do(old(View()), ops)
      {
        ghost var before := View();
        assert ops[i..][0] == ops[i] && ops[i..][1..] == ops[i + 1..];
        match ops[i] {
          case Schedule(period) =>
            var handle;
            ok, handle := Schedule(period);
          case Cancel(handle) =>
            Cancel(handle);
          case Raise =>
            ok := false;
        }
        DoOne(before, ops[i..]);
        i := i + 1;
      }
    }

    /** The head comes due: put back one period on, then called. */
    method Turn(ops: seq<Op>) returns (fired: Firing, ok: bool)
      requires due != []
      modifies this
      ensures fired == old(Firing(due[0].due, due[0].handle)) && (View(), ok) == Do(Pop(old(View())), ops)
    {
      hide Do;
      var e := due[0];
      elapsed := e.due;
      due := Insert(due[1..], e.(due := e.due + e.period));
      ok := Call(ops);
      fired := Firing(e.due, e.handle);
    }

    method Advance(seconds: real, calls: nat -> seq<Op>, n: nat) returns (reply: Reply)
      requires Valid(View()) && Moving(due) && Steady(calls)
      modifies this
      ensures (View(), reply) == Advanced(old(View()), seconds, calls, n)
    {
      hide Do, Pop, Fire, Steady, Valid, Moving, Left, Ties;
      if seconds < 0.0 { return Backwards; }
      if advancing { return AlreadyAdvancing; }
      SameSchedule(View(), View().(advancing := true));
      advancing := true;
      var target := elapsed + Nanoseconds(seconds);
      var log: seq<Firing> := [];
      ghost var whole := Fire(View(), target, calls, n);
      while due != [] && due[0].due <= target
        invariant Valid(View()) && Moving(due)
        invariant var rest := Fire(View(), target, calls, n + |log|);
          whole == Fired(log + rest.log, rest.clock, rest.raised)
        decreases Left(due, target), Ties(due)
      {
        FireTurns(View(), target, calls, n + |log|, log);
        var fired, ok := Turn(calls(n + |log|));
        log := log + [fired];
        if !ok {
          advancing := false;
          return Raised(log);
        }
      }
      FireDone(View(), target, calls, n + |log|);
      assert log + [] == log;
      elapsed := target;
      advancing := false;
      return Moved(log);
    }
  }

  lemma {:induction false} FireDone(c: Clock, target: int, calls: nat -> seq<Op>, n: nat)
    requires Valid(c) && Moving(c.due) && Steady(calls) && (c.due == [] || c.due[0].due > target)
    ensures Fire(c, target, calls, n) == Fired([], c, false)
  {
  }

  lemma {:induction false} FireTurns(c: Clock, target: int, calls: nat -> seq<Op>, n: nat, log: seq<Firing>)
    requires Valid(c) && Moving(c.due) && Steady(calls) && c.due != [] && c.due[0].due <= target
    ensures var (next, ok) := Do(Pop(c), calls(n));
      var all := log + [Firing(c.due[0].due, c.due[0].handle)];
      && Valid(next) && Moving(next.due)
      && (Left(next.due, target) < Left(c.due, target)
          || (Left(next.due, target) == Left(c.due, target) && Ties(next.due) < Ties(c.due)))
      && var f := Fire(c, target, calls, n);
         Fired(log + f.log, f.clock, f.raised) ==
         if !ok then Fired(all, next, true)
         else var rest := Fire(next, target, calls, n + 1); Fired(all + rest.log, rest.clock, rest.raised)
  {
    hide Do, Pop, Steady, Valid, Moving, Left, Ties;
    SteadyAt(calls, n);
    TurnGoesOn(c, calls(n));
    TurnDescends(c, calls(n), target);
    var (next, ok) := Do(Pop(c), calls(n));
    var first := Firing(c.due[0].due, c.due[0].handle);
    if ok {
      var rest := Fire(next, target, calls, n + 1);
      assert log + ([first] + rest.log) == (log + [first]) + rest.log;
    }
  }

  lemma {:induction false} DoOne(c: Clock, ops: seq<Op>)
    requires ops != []
    ensures var (c', ok) := Do(c, [ops[0]]);
      Do(c, ops) == if ok then Do(c', ops[1..]) else (c', false)
  {
  }
}
