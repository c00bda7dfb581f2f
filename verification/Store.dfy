/** The session store (`engine/src/flyball/record/sqlite.py`): what trimming, keeping a range and
    backfilling do to the samples and readings of a session, whose offsets count from an origin that
    the session's start may have moved past.

    A table is the set of its rows. */
module Store {
  import opened Options

  datatype Sample = Sample(device: nat, count: int, offset: int)

  datatype Reading = Reading(device: nat, count: int, signal: nat, offset: int, value: real)

  /** A session with what is stored under it; devices and signals by id, with their addresses. */
  datatype Session = Session(
    start: int, origin: int, end: Option<int>, devices: map<nat, string>, signals: map<nat, string>,
    samples: set<Sample>, readings: set<Reading>)

  predicate Injective(m: map<nat, string>) {
    forall i, j :: i in m && j in m && m[i] == m[j] ==> i == j
  }

  /** The keys and references the tables declare: one row for each sample key, and a reading only with
      its sample, written with the sample's offset. */
  ghost predicate Sound(s: Session) {
    && Injective(s.devices) && Injective(s.signals)
    && (forall x, y :: x in s.samples && y in s.samples && x.device == y.device && x.count == y.count ==> x == y)
    && (forall x :: x in s.samples ==> x.device in s.devices)
    && (forall r :: r in s.readings ==> r.signal in s.signals && Sample(r.device, r.count, r.offset) in s.samples)
    && (forall r, q :: r in s.readings && q in s.readings && r.device == q.device && r.count == q.count && r.signal == q.signal ==> r == q)
  }

  function Shift(s: Session): int {
    s.start - s.origin
  }

  // Reading a window.

  datatype Window = Window(start: Option<int>, end: Option<int>)

  /** The window is given from the session's start, the column counts from the origin. */
  predicate InWindow(w: Window, offset: int, shift: int) {
    (w.start.Some? ==> offset >= w.start.value + shift) && (w.end.Some? ==> offset < w.end.value + shift)
  }

  datatype Point = Point(time: int, value: real)

  function Selected(s: Session, signal: nat, w: Window): set<Reading> {
    set r | r in s.readings && r.signal == signal && InWindow(w, r.offset, Shift(s))
  }

  /** What a query of those rows, ordered by offset, may return: each once, and those of one instant in
      any order. */
  ghost predicate InOrder(rows: seq<Reading>, table: set<Reading>) {
    (forall r :: r in rows <==> r in table) && Sorted(rows)
  }

  ghost predicate Sorted(rows: seq<Reading>) {
    forall i, j :: 0 <= i < j < |rows| ==> rows[i].offset <= rows[j].offset && rows[i] != rows[j]
  }

  function Series(s: Session, rows: seq<Reading>): seq<Point> {
    seq(|rows|, i requires 0 <= i < |rows| => Point(rows[i].offset - Shift(s), rows[i].value))
  }

  function Absolute(s: Session, offset: int): int {
    s.origin + offset
  }

  predicate Covers(w: Window, start: int, time: int) {
    (w.start.Some? ==> time >= start + w.start.value) && (w.end.Some? ==> time < start + w.end.value)
  }

  /** A windowed read returns, in the order of time, one point for each reading whose absolute time is in
      the window, and no other: its value, at its time from the session's start, however that has moved. */
  lemma {:induction false} SeriesIsTheWindow(s: Session, signal: nat, w: Window, rows: seq<Reading>)
    requires InOrder(rows, Selected(s, signal, w))
    ensures var points := Series(s, rows);
      && |points| == |rows|
      && (forall i, j :: 0 <= i < j < |points| ==> points[i].time <= points[j].time)
      && (forall i :: 0 <= i < |rows| ==>
            && points[i].value == rows[i].value && Absolute(s, rows[i].offset) == s.start + points[i].time
            && rows[i] in s.readings && rows[i].signal == signal && Covers(w, s.start, Absolute(s, rows[i].offset)))
      && (forall r :: r in s.readings && r.signal == signal && Covers(w, s.start, Absolute(s, r.offset)) ==>
            exists i :: 0 <= i < |rows| && rows[i] == r)
      && (forall i, j :: 0 <= i < j < |rows| ==> rows[i] != rows[j])
  {
    forall i | 0 <= i < |rows|
      ensures rows[i] in s.readings && rows[i].signal == signal && Covers(w, s.start, Absolute(s, rows[i].offset))
    {
      assert rows[i] in rows;
    }
    forall r | r in s.readings && r.signal == signal && Covers(w, s.start, Absolute(s, r.offset))
      ensures exists i :: 0 <= i < |rows| && rows[i] == r
    {
      assert r in Selected(s, signal, w);
    }
  }

  function Placed(rows: seq<Reading>, r: Reading): seq<Reading> {
    if rows == [] || r.offset <= rows[0].offset then [r] + rows else [rows[0]] + Placed(rows[1..], r)
  }

  lemma {:induction false} PlacedHas(rows: seq<Reading>, r: Reading, x: Reading)
    ensures x in Placed(rows, r) <==> x == r || x in rows
    decreases |rows|
  {
    if rows != [] && rows[0].offset < r.offset {
      PlacedHas(rows[1..], r, x);
      assert rows == [rows[0]] + rows[1..];
    }
  }

  lemma {:induction false} PlacedSorted(rows: seq<Reading>, r: Reading)
    requires Sorted(rows) && r !in rows
    ensures Sorted(Placed(rows, r))
    decreases |rows|
  {
    if rows != [] && rows[0].offset < r.offset {
      var rest := Placed(rows[1..], r);
      PlacedSorted(rows[1..], r);
      forall j | 0 <= j < |rest| ensures rows[0].offset <= rest[j].offset && rows[0] != rest[j] {
        PlacedHas(rows[1..], r, rest[j]);
        FirstIsFirst(rows, rest[j]);
      }
    }
  }

  lemma {:induction false} FirstIsFirst(rows: seq<Reading>, x: Reading)
    requires Sorted(rows) && rows != []
    ensures x in rows[1..] ==> rows[0].offset <= x.offset && rows[0] != x
  {
  }

  /** There is such an order of any table. */
  lemma {:induction false} OrderExists(table: set<Reading>) returns (rows: seq<Reading>)
    ensures InOrder(rows, table)
    decreases |table|
  {
    if table == {} {
      rows := [];
    } else {
      var r :| r in table;
      var rest := OrderExists(table - {r});
      PlacedSorted(rest, r);
      rows := Placed(rest, r);
      forall x ensures x in rows <==> x in table { PlacedHas(rest, r, x); }
    }
  }

  // Trimming.

  function From(samples: set<Sample>, cut: int): set<Sample> {
    set x | x in samples && x.offset >= cut
  }

  /** A sample's readings go with it. */
  function Cascade(readings: set<Reading>, samples: set<Sample>): set<Reading> {
    set r | r in readings && exists x :: x in samples && x.device == r.device && x.count == r.count
  }

  function Earlier(a: int, b: int): int {
    if a < b then a else b
  }

  function Trim(s: Session, before: int): Session {
    var at := if s.end.Some? then Earlier(before, s.end.value) else before;
    if at <= s.start then s
    else
      var left := From(s.samples, at - (s.start - Shift(s)));
      s.(start := at, samples := left, readings := Cascade(s.readings, left))
  }

  // Copying.

  function Taken(source: Session, lo: int, hi: int): set<Sample> {
    set x | x in source.samples && lo <= x.offset < hi
  }

  function TakenReadings(source: Session, lo: int, hi: int): set<Reading> {
    set r | r in source.readings && lo <= r.offset < hi
  }

  datatype Kept = Made(session: Session) | Empty | TooEarly | TooLate

  /** The declarations are the source's own, so ids and counts come as they are. */
  function KeepRange(source: Session, start: int, end: int): Kept {
    if end <= start then Empty
    else if start < source.start then TooEarly
    else if source.end.Some? && end > source.end.value then TooLate
    else
      var lo, hi, delta := start - source.origin, end - source.origin, source.origin - start;
      Made(Session(start, start, Some(end), source.devices, source.signals,
                   set x | x in Taken(source, lo, hi) :: x.(offset := x.offset + delta),
                   set r | r in TakenReadings(source, lo, hi) :: r.(offset := r.offset + delta)))
  }

  /** The largest count in the source, or zero for none. */
  ghost predicate IsLast(source: Session, low: int) {
    if source.samples == {} then low == 0
    else (exists x :: x in source.samples && x.count == low) && (forall x :: x in source.samples ==> x.count <= low)
  }

  ghost predicate Matches(source: Session, target: Session, from: nat, to: nat) {
    from in source.devices && to in target.devices && source.devices[from] == target.devices[to]
  }

  ghost predicate SignalMatches(source: Session, target: Session, from: nat, to: nat) {
    from in source.signals && to in target.signals && source.signals[from] == target.signals[to]
  }

  /** Where a row of the source goes: the target's device and signal at the same addresses, and counts
      from -1 downwards. */
  ghost predicate Becomes(source: Session, target: Session, low: int, x: Sample, y: Sample) {
    Matches(source, target, x.device, y.device) && y.count == x.count - (low + 1)
    && y.offset == x.offset + (source.origin - target.origin)
  }

  ghost predicate ReadingBecomes(source: Session, target: Session, low: int, r: Reading, q: Reading) {
    && Matches(source, target, r.device, q.device) && SignalMatches(source, target, r.signal, q.signal)
    && q.count == r.count - (low + 1) && q.offset == r.offset + (source.origin - target.origin) && q.value == r.value
  }

  function Find(m: map<nat, string>, address: string): set<nat> {
    set k | k in m && m[k] == address
  }

  function CopiedSamples(source: Session, target: Session, low: int, lo: int, hi: int): set<Sample> {
    set x, d | x in Taken(source, lo, hi) && x.device in source.devices && d in Find(target.devices, source.devices[x.device])
      :: Sample(d, x.count - (low + 1), x.offset + (source.origin - target.origin))
  }

  function CopiedReadings(source: Session, target: Session, low: int, lo: int, hi: int): set<Reading> {
    set r, d, g | r in TakenReadings(source, lo, hi) && r.device in source.devices && r.signal in source.signals
        && d in Find(target.devices, source.devices[r.device]) && g in Find(target.signals, source.signals[r.signal])
      :: Reading(d, r.count - (low + 1), g, r.offset + (source.origin - target.origin), r.value)
  }

  /** What a backfill takes: never before the source's start nor past its end. */
  function Lower(source: Session, start: int): int {
    if start > source.start then start else source.start
  }

  function Upper(source: Session, end: int): int {
    if source.end.Some? then Earlier(end, source.end.value + 1) else end
  }

  function Backfill(source: Session, target: Session, low: int, start: int, end: int): Session {
    var from, to := Lower(source, start), Upper(source, end);
    if to <= from then target
    else
      var lo, hi := from - source.origin, to - source.origin;
      target.(samples := target.samples + CopiedSamples(source, target, low, lo, hi),
              readings := target.readings + CopiedReadings(source, target, low, lo, hi))
  }

  lemma {:induction false} CopiedReading(source: Session, target: Session, low: int, lo: int, hi: int, q: Reading)
    ensures q in CopiedReadings(source, target, low, lo, hi) <==>
      exists r :: r in source.readings && lo <= r.offset < hi && ReadingBecomes(source, target, low, r, q)
  {
    if r :| r in source.readings && lo <= r.offset < hi && ReadingBecomes(source, target, low, r, q) {
      assert r in TakenReadings(source, lo, hi) && q.device in Find(target.devices, source.devices[r.device]);
      assert q.signal in Find(target.signals, source.signals[r.signal]);
      assert q == Reading(q.device, r.count - (low + 1), q.signal, r.offset + (source.origin - target.origin), r.value);
    }
  }

  // What is recorded, in its own terms: at which address, when, which value.

  datatype Fact = Fact(device: string, signal: string, time: int, value: real)

  ghost predicate Records(s: Session, f: Fact) {
    exists r :: r in s.readings && Says(s, r, f)
  }

  ghost predicate Says(s: Session, r: Reading, f: Fact) {
    && r.device in s.devices && s.devices[r.device] == f.device
    && r.signal in s.signals && s.signals[r.signal] == f.signal
    && Absolute(s, r.offset) == f.time && r.value == f.value
  }

  lemma {:induction false} TrimKeepsReadings(s: Session, before: int)
    requires Sound(s)
    ensures var at := if s.end.Some? then Earlier(before, s.end.value) else before;
      && Sound(Trim(s, before))
      && (at > s.start ==> forall r :: r in Trim(s, before).readings <==> r in s.readings && Absolute(s, r.offset) >= at)
  {
  }

  /** Trimming keeps every reading from the cut on at its own time, and moves the start there. */
  lemma {:induction false} TrimKeepsTimes(s: Session, before: int, f: Fact)
    requires Sound(s)
    ensures var at := if s.end.Some? && s.end.value < before then s.end.value else before;
      var t := Trim(s, before);
      && Sound(t) && t.origin == s.origin
      && (at > s.start ==> t.start == at && (Records(t, f) <==> Records(s, f) && f.time >= at))
      && (at <= s.start ==> t == s)
  {
    hide Sound;
    TrimKeepsReadings(s, before);
    var t := Trim(s, before);
    var at := if s.end.Some? then Earlier(before, s.end.value) else before;
    if at > s.start {
      if Records(t, f) {
        var r :| r in t.readings && Says(t, r, f);
        assert Says(s, r, f);
      }
      if Records(s, f) && f.time >= at {
        var r :| r in s.readings && Says(s, r, f);
        assert r in t.readings && Says(t, r, f);
      }
    }
  }

  lemma {:induction false} KeptRows(source: Session, start: int, end: int, r: Reading)
    requires KeepRange(source, start, end).Made?
    ensures r in KeepRange(source, start, end).session.readings <==>
      exists q :: q in source.readings && start <= Absolute(source, q.offset) < end
                  && r == q.(offset := q.offset + (source.origin - start))
  {
  }

  lemma {:induction false} KeptIsSound(source: Session, start: int, end: int)
    requires Sound(source) && KeepRange(source, start, end).Made?
    ensures Sound(KeepRange(source, start, end).session)
  {
  }

  lemma {:induction false} KeptFields(source: Session, start: int, end: int)
    requires KeepRange(source, start, end).Made?
    ensures var k := KeepRange(source, start, end).session;
      && k.start == k.origin == start && k.end == Some(end) && k.devices == source.devices && k.signals == source.signals
  {
  }

  /** A range is kept exactly when it is not empty, begins no earlier than the session and, if that has
      ended, ends no later; of the refusals the first that applies is given. */
  lemma {:induction false} KeepRangeIff(source: Session, start: int, end: int)
    ensures var kept := KeepRange(source, start, end);
      && (kept.Made? <==> start < end && source.start <= start && (source.end.Some? ==> end <= source.end.value))
      && (kept == Empty <==> end <= start)
      && (kept == TooEarly <==> start < end && start < source.start)
      && (kept == TooLate <==> start < end && source.start <= start && source.end.Some? && source.end.value < end)
  {
  }

  /** A kept range holds exactly what the source recorded in it, each reading at its own time. */
  lemma {:induction false} KeepRangeKeepsTimes(source: Session, start: int, end: int, f: Fact)
    requires Sound(source) && KeepRange(source, start, end).Made?
    ensures var k := KeepRange(source, start, end).session;
      && Sound(k) && k.start == start && k.end == Some(end)
      && (Records(k, f) <==> Records(source, f) && start <= f.time < end)
  {
    hide Sound, KeepRange;
    KeptIsSound(source, start, end);
    KeptFields(source, start, end);
    var k := KeepRange(source, start, end).session;
    var delta := source.origin - start;
    if Records(k, f) {
      var r :| r in k.readings && Says(k, r, f);
      KeptRows(source, start, end, r);
      var q :| q in source.readings && start <= Absolute(source, q.offset) < end && r == q.(offset := q.offset + delta);
      assert Says(source, q, f);
    }
    if Records(source, f) && start <= f.time < end {
      var q :| q in source.readings && Says(source, q, f);
      var r := q.(offset := q.offset + delta);
      KeptRows(source, start, end, r);
      assert r in k.readings && Says(k, r, f);
    }
  }

  // Backfilling.

  /** What a writer has counted: from one up. */
  ghost predicate Written(s: Session) {
    forall x :: x in s.samples ==> x.count >= 1
  }

  ghost predicate SameKey(x: Sample, y: Sample) {
    x.device == y.device && x.count == y.count
  }

  ghost predicate Collides(target: Session, copied: set<Sample>) {
    exists x, y :: x in target.samples && y in copied && SameKey(x, y)
  }

  /** Backfilled counts are negative and keep their order, so they are disjoint from the writer's, in
      the target and among themselves. */
  lemma {:induction false} CountsGoBelow(source: Session, target: Session, low: int, lo: int, hi: int)
    requires Sound(source) && IsLast(source, low)
    ensures var copied := CopiedSamples(source, target, low, lo, hi);
      && (forall y :: y in copied ==> y.count <= -1 && y.device in target.devices)
      && (forall y, z :: y in copied && z in copied && SameKey(y, z) ==> y == z)
      && (Written(target) ==> !Collides(target, copied))
  {
  }

  lemma {:induction false} OrderIsKept(source: Session, target: Session, low: int, x: Sample, y: Sample, x': Sample,
      y': Sample)
    requires Becomes(source, target, low, x, y) && Becomes(source, target, low, x', y')
    ensures (y.count < y'.count <==> x.count < x'.count) && (y.offset < y'.offset <==> x.offset < x'.offset)
  {
  }

  lemma {:induction false} CopiedReadingsAreSound(source: Session, target: Session, low: int, lo: int, hi: int)
    requires Sound(source)
    ensures var samples, readings := CopiedSamples(source, target, low, lo, hi), CopiedReadings(source, target, low, lo, hi);
      && (forall q :: q in readings ==> q.signal in target.signals && Sample(q.device, q.count, q.offset) in samples)
      && (forall q, p :: q in readings && p in readings && q.device == p.device && q.count == p.count && q.signal == p.signal ==> q == p)
  {
    var readings := CopiedReadings(source, target, low, lo, hi);
    forall q | q in readings
      ensures q.signal in target.signals && Sample(q.device, q.count, q.offset) in CopiedSamples(source, target, low, lo, hi)
    {
      var r := CopiedFrom(source, target, low, lo, hi, q);
      assert Sample(r.device, r.count, r.offset) in Taken(source, lo, hi);
    }
    forall q, p | q in readings && p in readings && q.device == p.device && q.count == p.count && q.signal == p.signal
      ensures q == p
    {
      var r := CopiedFrom(source, target, low, lo, hi, q);
      var t := CopiedFrom(source, target, low, lo, hi, p);
      assert r.device == t.device && r.signal == t.signal && r.count == t.count;
    }
  }

  /** The reading a copied one is of. */
  lemma {:induction false} CopiedFrom(source: Session, target: Session, low: int, lo: int, hi: int, q: Reading)
    returns (r: Reading)
    requires q in CopiedReadings(source, target, low, lo, hi)
    ensures r in TakenReadings(source, lo, hi) && r.device in source.devices && r.signal in source.signals
    ensures q.device in Find(target.devices, source.devices[r.device])
    ensures q.signal in Find(target.signals, source.signals[r.signal])
    ensures q == Reading(q.device, r.count - (low + 1), q.signal, r.offset + (source.origin - target.origin), r.value)
  {
    var x, d, g :| x in TakenReadings(source, lo, hi) && x.device in source.devices && x.signal in source.signals
      && d in Find(target.devices, source.devices[x.device]) && g in Find(target.signals, source.signals[x.signal])
      && q == Reading(d, x.count - (low + 1), g, x.offset + (source.origin - target.origin), x.value);
    r := x;
  }

  lemma {:induction false} BackfillIsSound(source: Session, target: Session, low: int, start: int, end: int)
    requires Sound(source) && Sound(target) && IsLast(source, low)
    requires !Collides(target, CopiedSamples(source, target, low, Lower(source, start) - source.origin, Upper(source, end) - source.origin))
    ensures Sound(Backfill(source, target, low, start, end))
  {
    hide Sound, CopiedSamples, CopiedReadings, Collides;
    var lo, hi := Lower(source, start) - source.origin, Upper(source, end) - source.origin;
    CountsGoBelow(source, target, low, lo, hi);
    CopiedReadingsAreSound(source, target, low, lo, hi);
    UnionIsSound(target, CopiedSamples(source, target, low, lo, hi), CopiedReadings(source, target, low, lo, hi));
  }

  lemma {:induction false} UnionIsSound(target: Session, samples: set<Sample>, readings: set<Reading>)
    requires Sound(target) && !Collides(target, samples)
    requires forall y :: y in samples ==> y.device in target.devices
    requires forall y, z :: y in samples && z in samples && SameKey(y, z) ==> y == z
    requires forall q :: q in readings ==> q.signal in target.signals && Sample(q.device, q.count, q.offset) in samples
    requires forall q, p :: q in readings && p in readings && q.device == p.device && q.count == p.count && q.signal == p.signal ==> q == p
    ensures Sound(target.(samples := target.samples + samples, readings := target.readings + readings))
  {
  }

  ghost predicate Declares(s: Session, f: Fact) {
    (exists d :: d in s.devices && s.devices[d] == f.device) && (exists g :: g in s.signals && s.signals[g] == f.signal)
  }

  /** A backfill adds exactly what the source recorded in the range, and between its own start and end, at
      addresses the target declares, each reading at its own time, and takes nothing away. */
  lemma {:induction false} BackfillKeepsTimes(source: Session, target: Session, low: int, start: int, end: int,
      f: Fact)
    requires Sound(source) && Sound(target)
    ensures var t := Backfill(source, target, low, start, end);
      && t.origin == target.origin && t.start == target.start && t.devices == target.devices && t.signals == target.signals
      && (Records(t, f) <==>
            (Records(target, f)
             || (Records(source, f) && Declares(target, f)
                 && start <= f.time < end && source.start <= f.time && (source.end.Some? ==> f.time <= source.end.value))))
  {
    hide Sound, CopiedSamples, CopiedReadings;
    var t := Backfill(source, target, low, start, end);
    var from, to := Lower(source, start), Upper(source, end);
    var lo, hi := from - source.origin, to - source.origin;
    if from < to {
      if Records(t, f) {
        var q :| q in t.readings && Says(t, q, f);
        if q in target.readings {
          assert Says(target, q, f);
        } else {
          CopiedReading(source, target, low, lo, hi, q);
          var r :| r in source.readings && lo <= r.offset < hi && ReadingBecomes(source, target, low, r, q);
          assert Says(source, r, f);
        }
      }
      if Records(target, f) {
        var q :| q in target.readings && Says(target, q, f);
        assert q in t.readings && Says(t, q, f);
      }
      if Records(source, f) && from <= f.time < to && Declares(target, f) {
        var r :| r in source.readings && Says(source, r, f);
        var d :| d in target.devices && target.devices[d] == f.device;
        var g :| g in target.signals && target.signals[g] == f.signal;
        var q := Reading(d, r.count - (low + 1), g, r.offset + (source.origin - target.origin), r.value);
        assert ReadingBecomes(source, target, low, r, q);
        CopiedReading(source, target, low, lo, hi, q);
        assert q in t.readings && Says(t, q, f);
      }
    }
  }

  // The samples themselves, by the same times.

  lemma {:induction false} TrimKeepsSamples(s: Session, before: int, x: Sample)
    ensures var at := if s.end.Some? && s.end.value < before then s.end.value else before;
      at > s.start ==> (x in Trim(s, before).samples <==> x in s.samples && Absolute(s, x.offset) >= at)
  {
  }

  /** A kept range has a sample for each of the source's in it, under the same key and at its own time. */
  lemma {:induction false} KeepRangeKeepsSamples(source: Session, start: int, end: int, y: Sample)
    requires KeepRange(source, start, end).Made?
    ensures var k := KeepRange(source, start, end).session;
      y in k.samples <==>
        start <= Absolute(k, y.offset) < end
        && exists x :: x in source.samples && SameKey(x, y) && Absolute(source, x.offset) == Absolute(k, y.offset)
  {
    var k := KeepRange(source, start, end).session;
    var delta := source.origin - start;
    if start <= Absolute(k, y.offset) < end {
      if x :| x in source.samples && SameKey(x, y) && Absolute(source, x.offset) == Absolute(k, y.offset) {
        assert x in Taken(source, start - source.origin, end - source.origin) && y == x.(offset := x.offset + delta);
      }
    }
  }

  /** A backfill adds one for each of the source's in the range whose device the target has, and no other. */
  lemma {:induction false} BackfillKeepsSamples(source: Session, target: Session, low: int, start: int, end: int,
      y: Sample)
    ensures var t := Backfill(source, target, low, start, end);
      y in t.samples <==>
        || y in target.samples
        || (exists x :: x in source.samples && Becomes(source, target, low, x, y) && InReach(source, start, end, x))
  {
    var from, to := Lower(source, start), Upper(source, end);
    if from < to {
      CopiedSample(source, target, low, from - source.origin, to - source.origin, y);
    }
  }

  ghost predicate InReach(source: Session, start: int, end: int, x: Sample) {
    var time := Absolute(source, x.offset);
    start <= time < end && source.start <= time && (source.end.Some? ==> time <= source.end.value)
  }

  lemma {:induction false} CopiedSample(source: Session, target: Session, low: int, lo: int, hi: int, y: Sample)
    ensures y in CopiedSamples(source, target, low, lo, hi) <==>
      exists x :: x in source.samples && Becomes(source, target, low, x, y) && lo <= x.offset < hi
  {
    if x :| x in source.samples && Becomes(source, target, low, x, y) && lo <= x.offset < hi {
      assert x in Taken(source, lo, hi) && y.device in Find(target.devices, source.devices[x.device]);
      assert y == Sample(y.device, x.count - (low + 1), x.offset + (source.origin - target.origin));
    }
  }

  // Any run of them over a store of sessions.

  datatype Op =
    | TrimOp(id: nat, before: int)
    | KeepOp(id: nat, made: nat, start: int, end: int)
    | FillOp(id: nat, from: nat, low: int, start: int, end: int)

  ghost predicate Possible(sessions: map<nat, Session>, op: Op) {
    match op
    case TrimOp(id, _) => id in sessions
    case KeepOp(id, made, _, _) => id in sessions && made !in sessions
    case FillOp(id, from, low, _, _) => id in sessions && from in sessions && IsLast(sessions[from], low)
  }

  /** One operation; a backfill whose keys collide is rolled back. */
  ghost function Do(sessions: map<nat, Session>, op: Op): map<nat, Session>
    requires Possible(sessions, op)
  {
    match op
    case TrimOp(id, before) => sessions[id := Trim(sessions[id], before)]
    case KeepOp(id, made, start, end) =>
      var kept := KeepRange(sessions[id], start, end);
      if kept.Made? then sessions[made := kept.session] else sessions
    case FillOp(id, from, low, start, end) =>
      var source, target := sessions[from], sessions[id];
      var lo, hi := Lower(source, start) - source.origin, Upper(source, end) - source.origin;
      if Collides(target, CopiedSamples(source, target, low, lo, hi)) then sessions
      else sessions[id := Backfill(source, target, low, start, end)]
  }

  ghost predicate AllSound(sessions: map<nat, Session>) {
    forall id :: id in sessions ==> Sound(sessions[id])
  }

  ghost predicate Somewhere(sessions: map<nat, Session>, f: Fact) {
    exists id :: id in sessions && Records(sessions[id], f)
  }

  /** Nothing recorded anywhere that was not recorded somewhere before, at the same address, at the
      same absolute time, with the same value; and nothing gone but what lies before a session's new
      start. */
  ghost predicate Faithful(before: map<nat, Session>, after: map<nat, Session>, f: Fact) {
    && (Somewhere(after, f) ==> Somewhere(before, f))
    && (forall id :: id in before ==> Stays(before, after, id, f))
  }

  ghost predicate Stays(before: map<nat, Session>, after: map<nat, Session>, id: nat, f: Fact)
    requires id in before
  {
    && id in after && after[id].start >= before[id].start
    && (Records(before[id], f) && f.time >= after[id].start ==> Records(after[id], f))
  }

  lemma {:induction false} OpIsFaithful(sessions: map<nat, Session>, op: Op, f: Fact)
    requires AllSound(sessions) && Possible(sessions, op)
    ensures AllSound(Do(sessions, op)) && Faithful(sessions, Do(sessions, op), f)
  {
    hide Sound, Records, Trim, KeepRange, Backfill, Collides;
    match op
    case TrimOp(id, before) => TrimKeepsTimes(sessions[id], before, f);
    case KeepOp(id, made, start, end) =>
      if KeepRange(sessions[id], start, end).Made? { KeepRangeKeepsTimes(sessions[id], start, end, f); }
    case FillOp(id, from, low, start, end) =>
      var source, target := sessions[from], sessions[id];
      var lo, hi := Lower(source, start) - source.origin, Upper(source, end) - source.origin;
      if !Collides(target, CopiedSamples(source, target, low, lo, hi)) {
        BackfillIsSound(source, target, low, start, end);
        BackfillKeepsTimes(source, target, low, start, end, f);
      }
  }

  ghost predicate IsRun(states: seq<map<nat, Session>>, ops: seq<Op>) {
    && |states| == |ops| + 1 && AllSound(states[0])
    && forall i :: 0 <= i < |ops| ==> Possible(states[i], ops[i]) && states[i + 1] == Do(states[i], ops[i])
  }

  /** Over any run of trims, kept ranges and backfills. */
  lemma {:induction false} EveryRunIsFaithful(states: seq<map<nat, Session>>, ops: seq<Op>, i: nat, f: Fact)
    requires IsRun(states, ops) && i < |states|
    ensures AllSound(states[i]) && Faithful(states[0], states[i], f)
  {
    hide AllSound, Do, Possible, Records;
    if i > 0 {
      EveryRunIsFaithful(states, ops, i - 1, f);
      OpIsFaithful(states[i - 1], ops[i - 1], f);
      Onward(states[0], states[i - 1], states[i], f);
    }
  }

  lemma {:induction false} Onward(a: map<nat, Session>, b: map<nat, Session>, c: map<nat, Session>, f: Fact)
    requires Faithful(a, b, f) && Faithful(b, c, f)
    ensures Faithful(a, c, f)
  {
  }

  // Deleting in batches, each its own transaction.

  /** What is to go: everything, or what lies before the cut. */
  predicate Goes(x: Sample, cut: Option<int>) {
    cut.None? || x.offset < cut.value
  }

  function Survivors(samples: set<Sample>, cut: Option<int>): set<Sample> {
    set x | x in samples && !Goes(x, cut)
  }

  /** Cut off at any point, whatever has gone was to go; done again, to the same cut or a later one, it
      ends in the rows one deletion leaves. */
  lemma {:induction false} RerunFinishes(samples: set<Sample>, left: set<Sample>, cut: Option<int>,
      later: Option<int>)
    requires Survivors(samples, cut) <= left <= samples
    requires later.None? || (cut.Some? && cut.value <= later.value)
    ensures Survivors(left, later) == Survivors(samples, later)
  {
  }

  method DeleteBatch(samples: set<Sample>, cut: Option<int>, batch: nat) returns (left: set<Sample>, deleted: nat)
    ensures Survivors(samples, cut) <= left <= samples && |left| + deleted == |samples|
    ensures deleted < batch ==> left == Survivors(samples, cut)
    ensures deleted <= batch
  {
    left, deleted := samples, 0;
    var going := set x | x in samples && Goes(x, cut);
    while going != {} && deleted < batch
      invariant Survivors(samples, cut) <= left <= samples && |left| + deleted == |samples| && deleted <= batch
      invariant going == set x | x in left && Goes(x, cut)
      decreases |going|
    {
      var x :| x in going;
      left := left - {x};
      going := going - {x};
      deleted := deleted + 1;
    }
    if going == {} {
      forall x | x in left ensures x in Survivors(samples, cut) { }
    }
  }

  /** `_delete_data` on one table; `allowed` is how many transactions happen before the process is
      gone, if it goes. */
  method DeleteData(samples: set<Sample>, cut: Option<int>, batch: nat, allowed: nat) returns (left: set<Sample>,
      done: bool)
    requires batch >= 1
    ensures Survivors(samples, cut) <= left <= samples
    ensures done ==> left == Survivors(samples, cut)
    ensures !done ==> |left| + allowed * batch <= |samples|
  {
    left := samples;
    var transactions := 0;
    while transactions < allowed
      invariant transactions <= allowed && Survivors(samples, cut) <= left <= samples
      invariant |left| + transactions * batch <= |samples|
    {
      var deleted;
      ghost var before := left;
      left, deleted := DeleteBatch(left, cut, batch);
      RerunFinishes(samples, before, cut, cut);
      transactions := transactions + 1;
      if deleted < batch { return left, true; }
      assert |left| + transactions * batch == |before| + (transactions - 1) * batch;
    }
    return left, false;
  }

  /** The largest count there is, or zero. */
  method Newest(source: Session) returns (low: int)
    ensures IsLast(source, low)
  {
    low := 0;
    var left := source.samples;
    var any := false;
    while left != {}
      invariant left <= source.samples && (any <==> left != source.samples)
      invariant any ==> (exists x :: x in source.samples && x.count == low)
      invariant forall x :: x in source.samples && x !in left ==> x.count <= low
      invariant !any ==> low == 0
      decreases |left|
    {
      var x :| x in left;
      left := left - {x};
      if !any || x.count > low { low := x.count; }
      any := true;
    }
  }

  // The store, updating its sessions in place.

  class SqliteStore {
    var sessions: map<nat, Session>

    constructor ()
      ensures sessions == map[]
    {
      sessions := map[];
    }

    /** Cut off part-way, the rows that are left are some the trim would have kept or were yet to go. */
    method TrimSession(id: nat, before: int, batch: nat, allowed: nat) returns (found: bool, done: bool)
      requires batch >= 1
      modifies this
      ensures found == (id in old(sessions))
      ensures !found ==> sessions == old(sessions)
      ensures found && done ==> sessions == old(sessions)[id := Trim(old(sessions)[id], before)]
      ensures found && !done ==> id in sessions
      ensures found && !done ==>
        && sessions == old(sessions)[id := sessions[id]]
        && Trim(old(sessions)[id], before).samples <= sessions[id].samples <= old(sessions)[id].samples
        && sessions[id] == old(sessions)[id].(samples := sessions[id].samples, readings := Cascade(old(sessions)[id].readings, sessions[id].samples))
    {
      if id !in sessions { return false, false; }
      var s := sessions[id];
      var at := if s.end.Some? then Earlier(before, s.end.value) else before;
      if at <= s.start { return true, true; }
      var cut := at - (s.start - Shift(s));
      var left;
      left, done := DeleteData(s.samples, Some(cut), batch, allowed);
      assert Survivors(s.samples, Some(cut)) == From(s.samples, cut);
      sessions := sessions[id := s.(samples := left, readings := Cascade(s.readings, left))];
      if done { sessions := sessions[id := sessions[id].(start := at)]; }
      return true, done;
    }

    method Keep(id: nat, made: nat, start: int, end: int) returns (kept: Kept)
      requires id in sessions && made !in sessions
      modifies this
      ensures kept == KeepRange(old(sessions)[id], start, end)
      ensures sessions == if kept.Made? then old(sessions)[made := kept.session] else old(sessions)
    {
      kept := KeepRange(sessions[id], start, end);
      if kept.Made? { sessions := sessions[made := kept.session]; }
    }

    /** `ok` is false for a key already there: the transaction is rolled back. */
    method Fill(id: nat, from: nat, start: int, end: int) returns (low: int, ok: bool)
      requires id in sessions && from in sessions
      modifies this
      ensures IsLast(old(sessions)[from], low)
      ensures sessions == Do(old(sessions), FillOp(id, from, low, start, end))
      ensures Written(old(sessions)[id]) && Sound(old(sessions)[from]) ==> ok
    {
      hide CopiedSamples, CopiedReadings;
      var source, target := sessions[from], sessions[id];
      low := Newest(source);
      var lo, hi := Lower(source, start) - source.origin, Upper(source, end) - source.origin;
      var copied := CopiedSamples(source, target, low, lo, hi);
      if forall x, y :: x in target.samples && y in copied ==> x.device != y.device || x.count != y.count {
        sessions := sessions[id := Backfill(source, target, low, start, end)];
        return low, true;
      }
      assert Collides(target, copied);
      if Sound(source) { CountsGoBelow(source, target, low, lo, hi); }
      return low, false;
    }
  }

  /** A trim cut off and done again, with no earlier a cut, ends where one trim would have. */
  lemma {:induction false} TrimAgainFinishes(s: Session, left: set<Sample>, before: int, later: int)
    requires s.start < before <= later && (s.end.Some? ==> later <= s.end.value)
    requires Trim(s, before).samples <= left <= s.samples
    ensures Trim(s.(samples := left, readings := Cascade(s.readings, left)), later) == Trim(s, later)
  {
  }
}
