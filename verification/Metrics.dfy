/**
 Counters and histograms, per process and merged over the snapshots of all workers. Sums and bounds are exact
 reals here; a series is named by its metric and its labels.
 */
module Metrics {
  import opened Sequences

  type Key = (string, map<string, string>)

  datatype Bound = Finite(limit: real) | Infinity

  /** Buckets are cumulative: each counts all observations at or below its bound. */
  datatype Hist = Hist(bounds: seq<Bound>, buckets: seq<int>, count: int, sum: real)

  type Series = h: Hist | |h.buckets| == |h.bounds| witness Hist([], [], 0, 0.0)

  datatype Event = Inc(key: Key, amount: real) | Observe(key: Key, value: real, bounds: seq<Bound>)

  datatype Store = Store(counters: map<Key, real>, hists: map<Key, Series>)

  const EMPTY := Store(map[], map[])

  predicate Reaches(value: real, bound: Bound) {
    bound.Infinity? || value <= bound.limit
  }

  function Bumped(bounds: seq<Bound>, buckets: seq<int>, value: real): (bumped: seq<int>)
    requires |buckets| == |bounds|
    ensures |bumped| == |buckets|
  {
    seq(|buckets|, i requires 0 <= i < |buckets| => buckets[i] + (if Reaches(value, bounds[i]) then 1 else 0))
  }

  function Observed(h: Series, value: real): Series {
    Hist(h.bounds, Bumped(h.bounds, h.buckets, value), h.count + 1, h.sum + value)
  }

  function Blank(bounds: seq<Bound>): Series {
    Hist(bounds, seq(|bounds|, i => 0), 0, 0.0)
  }

  function At<V>(m: map<Key, V>, key: Key): Option<V> {
    if key in m then Some(m[key]) else None
  }

  function AddCounter(counters: map<Key, real>, key: Key, amount: real): map<Key, real> {
    counters[key := (if key in counters then counters[key] else 0.0) + amount]
  }

  // ----- What a histogram means

  function CountUpTo(values: seq<real>, bound: Bound): nat {
    if values == [] then 0 else CountUpTo(Front(values), bound) + (if Reaches(Last(values), bound) then 1 else 0)
  }

  function Total(values: seq<real>): real {
    if values == [] then 0.0 else Total(Front(values)) + Last(values)
  }

  /** The histogram of a list of observations. */
  function HistOf(bounds: seq<Bound>, values: seq<real>): Series {
    Hist(bounds, seq(|bounds|, i requires 0 <= i < |bounds| => CountUpTo(values, bounds[i])), |values|, Total(values))
  }

  lemma {:induction false} CountAppend(xs: seq<real>, ys: seq<real>, bound: Bound)
    ensures CountUpTo(xs + ys, bound) == CountUpTo(xs, bound) + CountUpTo(ys, bound)
  {
    if ys == [] {
      assert xs + ys == xs;
    } else {
      CountAppend(xs, Front(ys), bound);
      assert Front(xs + ys) == xs + Front(ys);
    }
  }

  lemma {:induction false} TotalAppend(xs: seq<real>, ys: seq<real>)
    ensures Total(xs + ys) == Total(xs) + Total(ys)
  {
    if ys == [] {
      assert xs + ys == xs;
    } else {
      TotalAppend(xs, Front(ys));
      assert Front(xs + ys) == xs + Front(ys);
    }
  }

  /** Positions of the observations at or below a bound. */
  ghost function AtOrBelow(values: seq<real>, bound: Bound): set<nat> {
    set k: nat | k < |values| && (bound.Infinity? || values[k] <= bound.limit)
  }

  lemma {:induction false} CountIsSize(values: seq<real>, bound: Bound)
    ensures CountUpTo(values, bound) == |AtOrBelow(values, bound)|
  {
    if values != [] {
      var front := Front(values);
      CountIsSize(front, bound);
      var now := if bound.Infinity? || Last(values) <= bound.limit then {|front|} else {};
      assert AtOrBelow(values, bound) == AtOrBelow(front, bound) + now;
      assert |front| !in AtOrBelow(front, bound);
    }
  }

  /** What a histogram shows: of each bound how many observations are at or below it, their number and their sum. */
  lemma BucketsCountObservations(bounds: seq<Bound>, values: seq<real>, i: nat)
    requires i < |bounds|
    ensures var h := HistOf(bounds, values);
            && h.bounds == bounds && h.count == |values| && h.sum == Total(values)
            && h.buckets[i] == |set k: nat | k < |values| && (bounds[i].Infinity? || values[k] <= bounds[i].limit)|
  {
    CountIsSize(values, bounds[i]);
    assert AtOrBelow(values, bounds[i]) ==
           set k: nat | k < |values| && (bounds[i].Infinity? || values[k] <= bounds[i].limit);
  }

  lemma BlankIsOfNone(bounds: seq<Bound>)
    ensures Blank(bounds) == HistOf(bounds, [])
  {
    assert Blank(bounds).buckets == HistOf(bounds, []).buckets;
  }

  lemma ObservedIsOneMore(bounds: seq<Bound>, values: seq<real>, value: real)
    ensures Observed(HistOf(bounds, values), value) == HistOf(bounds, values + [value])
  {
    assert Front(values + [value]) == values;
    assert Observed(HistOf(bounds, values), value).buckets == HistOf(bounds, values + [value]).buckets;
  }

  /** No bucket exceeds the count, an infinite bound's bucket is the count, and larger bounds have larger buckets. */
  lemma {:induction false} BucketsAreCumulative(bounds: seq<Bound>, values: seq<real>, i: nat, j: nat)
    requires i < |bounds| && j < |bounds|
    ensures var h := HistOf(bounds, values);
            && h.buckets[i] <= h.count
            && (bounds[i].Infinity? ==> h.buckets[i] == h.count)
            && (bounds[j].Infinity? || (bounds[i].Finite? && bounds[i].limit <= bounds[j].limit) ==> h.buckets[i] <= h.buckets[j])
  {
    if values != [] { BucketsAreCumulative(bounds, Front(values), i, j); }
  }

  lemma SplitLast<T>(xs: seq<T>)
    requires xs != []
    ensures multiset(xs) == multiset(Front(xs)) + multiset{Last(xs)}
  {
    assert xs == Front(xs) + [Last(xs)];
  }

  lemma LeftOut<T>(ys: seq<T>, k: nat)
    requires k < |ys|
    ensures ys == ys[..k] + [ys[k]] + ys[k + 1..]
    ensures multiset(ys) == multiset(ys[..k] + ys[k + 1..]) + multiset{ys[k]}
  {
    assert ys == ys[..k] + [ys[k]] + ys[k + 1..];
  }

  lemma Cancel<T>(a: multiset<T>, b: multiset<T>, x: T)
    requires a + multiset{x} == b + multiset{x}
    ensures a == b
  {
    assert a == (a + multiset{x}) - multiset{x};
    assert b == (b + multiset{x}) - multiset{x};
  }

  /** Two lists with the same elements: where the last of the first stands in the second. */
  lemma TakeOut<T>(xs: seq<T>, ys: seq<T>) returns (a: seq<T>, b: seq<T>)
    requires multiset(xs) == multiset(ys) && xs != []
    ensures ys == a + [Last(xs)] + b && multiset(Front(xs)) == multiset(a + b)
  {
    SplitLast(xs);
    assert Last(xs) in multiset(ys);
    var k :| 0 <= k < |ys| && ys[k] == Last(xs);
    LeftOut(ys, k);
    a, b := ys[..k], ys[k + 1..];
    Cancel(multiset(Front(xs)), multiset(a + b), Last(xs));
  }

  lemma NoElements<T>(xs: seq<T>)
    requires multiset(xs) == multiset{}
    ensures xs == []
  {
    assert |multiset(xs)| == 0;
  }

  lemma ValueInTheMiddle(front: seq<real>, x: real, a: seq<real>, b: seq<real>, bound: Bound)
    requires CountUpTo(front, bound) == CountUpTo(a + b, bound) && Total(front) == Total(a + b)
    ensures CountUpTo(front + [x], bound) == CountUpTo(a + [x] + b, bound) && Total(front + [x]) == Total(a + [x] + b)
  {
    CountAppend(front, [x], bound);
    CountAppend(a + [x], b, bound);
    CountAppend(a, [x], bound);
    CountAppend(a, b, bound);
    TotalAppend(front, [x]);
    TotalAppend(a + [x], b);
    TotalAppend(a, [x]);
    TotalAppend(a, b);
  }

  /** The order of observations does not matter. */
  lemma {:induction false} OrderDoesNotMatter(xs: seq<real>, ys: seq<real>, bound: Bound)
    requires multiset(xs) == multiset(ys)
    ensures CountUpTo(xs, bound) == CountUpTo(ys, bound) && Total(xs) == Total(ys)
    decreases |xs|
  {
    if xs == [] {
      NoElements(ys);
    } else {
      var a, b := TakeOut(xs, ys);
      OrderDoesNotMatter(Front(xs), a + b, bound);
      ValueInTheMiddle(Front(xs), Last(xs), a, b, bound);
      assert Front(xs) + [Last(xs)] == xs;
    }
  }

  lemma SameHist(bounds: seq<Bound>, xs: seq<real>, ys: seq<real>)
    requires multiset(xs) == multiset(ys)
    ensures HistOf(bounds, xs) == HistOf(bounds, ys)
  {
    forall bound { OrderDoesNotMatter(xs, ys, bound); }
    OrderDoesNotMatter(xs, ys, Infinity);
    assert |multiset(xs)| == |xs| && |multiset(ys)| == |ys|;
    assert HistOf(bounds, xs).buckets == HistOf(bounds, ys).buckets;
  }

  // ----- One process

  function Next(st: Store, event: Event): Store {
    match event
    case Inc(key, amount) => st.(counters := AddCounter(st.counters, key, amount))
    case Observe(key, value, bounds) =>
      st.(hists := st.hists[key := Observed(if key in st.hists then st.hists[key] else Blank(bounds), value)])
  }

  function Run(log: seq<Event>): Store {
    if log == [] then EMPTY else Next(Run(Front(log)), Last(log))
  }

  /** What a counter was raised by in all; None if it never was raised. */
  function CounterOf(log: seq<Event>, key: Key): Option<real> {
    if log == [] then None
    else
      var before, event := CounterOf(Front(log), key), Last(log);
      if event.Inc? && event.key == key then Some((if before.Some? then before.value else 0.0) + event.amount) else before
  }

  function ValuesOf(log: seq<Event>, key: Key): seq<real> {
    if log == [] then []
    else if Last(log).Observe? && Last(log).key == key then ValuesOf(Front(log), key) + [Last(log).value]
    else ValuesOf(Front(log), key)
  }

  /** The bounds of a series are those of its first observation. */
  function FirstBounds(log: seq<Event>, key: Key): Option<seq<Bound>> {
    if log == [] then None
    else
      var before := FirstBounds(Front(log), key);
      if before.Some? then before
      else if Last(log).Observe? && Last(log).key == key then Some(Last(log).bounds) else None
  }

  lemma {:induction false} ObservedHasBounds(log: seq<Event>, key: Key)
    ensures FirstBounds(log, key).Some? <==> ValuesOf(log, key) != []
  {
    if log != [] { ObservedHasBounds(Front(log), key); }
  }

  /** A process's series are the counts and sums of everything it was told. */
  lemma {:induction false} StoreTellsTheLog(log: seq<Event>, key: Key)
    ensures At(Run(log).counters, key) == CounterOf(log, key)
    ensures At(Run(log).hists, key) ==
            if FirstBounds(log, key).None? then None else Some(HistOf(FirstBounds(log, key).value, ValuesOf(log, key)))
  {
    if log != [] {
      StoreTellsTheLog(Front(log), key);
      var event := Last(log);
      if event.Observe? && event.key == key {
        var bounds := if FirstBounds(Front(log), key).Some? then FirstBounds(Front(log), key).value else event.bounds;
        ObservedHasBounds(Front(log), key);
        BlankIsOfNone(bounds);
        ObservedIsOneMore(bounds, ValuesOf(Front(log), key), event.value);
      }
    }
  }

  function Plus(a: Option<real>, b: Option<real>): Option<real> {
    if a.None? then b else if b.None? then a else Some(a.value + b.value)
  }

  lemma {:induction false} LogAppend(a: seq<Event>, b: seq<Event>, key: Key)
    ensures CounterOf(a + b, key) == Plus(CounterOf(a, key), CounterOf(b, key))
    ensures ValuesOf(a + b, key) == ValuesOf(a, key) + ValuesOf(b, key)
    ensures FirstBounds(a + b, key) == if FirstBounds(a, key).Some? then FirstBounds(a, key) else FirstBounds(b, key)
  {
    if b == [] {
      assert a + b == a;
    } else {
      LogAppend(a, Front(b), key);
      assert Front(a + b) == a + Front(b);
    }
  }

  // ----- The file form of a histogram

  /** An infinite bound is written as a missing number. */
  datatype Json = Json(bounds: seq<Option<real>>, buckets: seq<int>, count: int, sum: real)

  function ToJson(h: Hist): Json {
    Json(seq(|h.bounds|, i requires 0 <= i < |h.bounds| =>
           if h.bounds[i].Infinity? then None else Some(h.bounds[i].limit)),
         h.buckets, h.count, h.sum)
  }

  function FromJson(j: Json): Option<Series> {
    if j.bounds == [] || |j.buckets| != |j.bounds| then None
    else
      Some(Hist(seq(|j.bounds|, i requires 0 <= i < |j.bounds| =>
                  if j.bounds[i].None? then Infinity else Finite(j.bounds[i].value)),
                j.buckets, j.count, j.sum))
  }

  /** Reading back what was written gives the series, unless it has no bounds: then it gives nothing. */
  lemma JsonRoundTripIff(h: Series)
    ensures FromJson(ToJson(h)) == if h.bounds != [] then Some(h) else None
  {
    if h.bounds != [] {
      assert FromJson(ToJson(h)).value.bounds == h.bounds;
    }
  }

  // ----- Merging

  /** Occupancy of one process: open chats, and calls per tool pool. */
  datatype Gauges = Gauges(inFlight: int, pools: map<string, int>)

  const POOLS := {"order", "course"}

  datatype Snapshot = Snapshot(counters: seq<(Key, real)>, hists: seq<(Key, Json)>, gauges: Gauges)

  /** A pool that is not mentioned counts as empty. */
  function Occupancy(g: Gauges, pool: string): int {
    if pool in g.pools then g.pools[pool] else 0
  }

  const NO_LOAD := Gauges(0, map pool | pool in POOLS :: 0)

  /** Gauges are summed; pools with other names are ignored. */
  function AddGauges(dest: Gauges, g: Gauges): Gauges {
    Gauges(dest.inFlight + g.inFlight, map pool | pool in POOLS :: Occupancy(dest, pool) + Occupancy(g, pool))
  }

  function MergedGauges(files: seq<Option<Snapshot>>): Gauges {
    if files == [] then NO_LOAD
    else if Last(files).None? then MergedGauges(Front(files))
    else AddGauges(MergedGauges(Front(files)), Last(files).value.gauges)
  }

  /** What one file adds to a pool's gauge. */
  function Reading(file: Option<Snapshot>, pool: string): int {
    if file.None? || pool !in file.value.gauges.pools then 0 else file.value.gauges.pools[pool]
  }

  /** The merged gauge of a pool is the sum of the readings of all files, and only known pools have one. */
  lemma {:induction false} GaugesAddUp(files: seq<Option<Snapshot>>, pool: string)
    ensures MergedGauges(files).pools.Keys == {"order", "course"}
    ensures pool == "order" || pool == "course" ==>
              MergedGauges(files).pools[pool] == Sum(seq(|files|, i requires 0 <= i < |files| => Reading(files[i], pool)))
    ensures MergedGauges(files).inFlight ==
            Sum(seq(|files|, i requires 0 <= i < |files| => if files[i].None? then 0 else files[i].value.gauges.inFlight))
  {
    if files != [] {
      var front := Front(files);
      GaugesAddUp(front, pool);
      var pools := seq(|files|, i requires 0 <= i < |files| => Reading(files[i], pool));
      var chats := seq(|files|, i requires 0 <= i < |files| => if files[i].None? then 0 else files[i].value.gauges.inFlight);
      assert Front(pools) == seq(|front|, i requires 0 <= i < |front| => Reading(front[i], pool));
      assert Front(chats) ==
             seq(|front|, i requires 0 <= i < |front| => if front[i].None? then 0 else front[i].value.gauges.inFlight);
    }
  }

  /** Buckets are summed only between equal bounds; a series with other bounds than the first is dropped. */
  function Combined(existing: Option<Series>, h: Series): Series {
    if existing.None? then h
    else if existing.value.bounds != h.bounds then existing.value
    else
      var e := existing.value;
      Hist(e.bounds, seq(|e.buckets|, i requires 0 <= i < |e.buckets| => e.buckets[i] + h.buckets[i]),
           e.count + h.count, e.sum + h.sum)
  }

  function MergeCounters(dest: map<Key, real>, rows: seq<(Key, real)>): map<Key, real> {
    if rows == [] then dest else AddCounter(MergeCounters(dest, Front(rows)), Last(rows).0, Last(rows).1)
  }

  function MergeHist(dest: map<Key, Series>, row: (Key, Json)): map<Key, Series> {
    var h := FromJson(row.1);
    if h.None? then dest else dest[row.0 := Combined(At(dest, row.0), h.value)]
  }

  function MergeHists(dest: map<Key, Series>, rows: seq<(Key, Json)>): map<Key, Series> {
    if rows == [] then dest else MergeHist(MergeHists(dest, Front(rows)), Last(rows))
  }

  /** Fold all files; one that cannot be read is skipped. */
  function Merged(files: seq<Option<Snapshot>>): Store {
    if files == [] then EMPTY
    else
      var st := Merged(Front(files));
      match Last(files)
      case None => st
      case Some(s) => Store(MergeCounters(st.counters, s.counters), MergeHists(st.hists, s.hists))
  }

  // ----- Rows of one snapshot

  function RowAt<V>(rows: seq<(Key, V)>, key: Key): Option<V> {
    if rows == [] then None else if Last(rows).0 == key then Some(Last(rows).1) else RowAt(Front(rows), key)
  }

  /** The rows list the map, each key once, in some order. */
  ghost predicate Lists<V>(rows: seq<(Key, V)>, m: map<Key, V>) {
    && (forall i, j :: 0 <= i < j < |rows| ==> rows[i].0 != rows[j].0)
    && (forall key :: RowAt(rows, key) == At(m, key))
  }

  function Jsons(hists: map<Key, Series>): map<Key, Json> {
    map key | key in hists :: ToJson(hists[key])
  }

  ghost predicate SnapshotOf(s: Snapshot, st: Store) {
    Lists(s.counters, st.counters) && Lists(s.hists, Jsons(st.hists))
  }

  lemma {:induction false} NoRow<V>(rows: seq<(Key, V)>, key: Key)
    requires forall i :: 0 <= i < |rows| ==> rows[i].0 != key
    ensures RowAt(rows, key) == None
  {
    if rows != [] { NoRow(Front(rows), key); }
  }

  lemma {:induction false} CountersAt(dest: map<Key, real>, rows: seq<(Key, real)>, key: Key)
    requires forall i, j :: 0 <= i < j < |rows| ==> rows[i].0 != rows[j].0
    ensures At(MergeCounters(dest, rows), key) == Plus(At(dest, key), RowAt(rows, key))
  {
    if rows != [] {
      CountersAt(dest, Front(rows), key);
      if Last(rows).0 == key {
        NoRow(Front(rows), key);
      }
    }
  }

  lemma {:induction false} HistsAt(dest: map<Key, Series>, rows: seq<(Key, Json)>, key: Key)
    requires forall i, j :: 0 <= i < j < |rows| ==> rows[i].0 != rows[j].0
    ensures At(MergeHists(dest, rows), key) ==
            if RowAt(rows, key).None? || FromJson(RowAt(rows, key).value).None? then At(dest, key)
            else Some(Combined(At(dest, key), FromJson(RowAt(rows, key).value).value))
  {
    if rows != [] {
      HistsAt(dest, Front(rows), key);
      if Last(rows).0 == key {
        NoRow(Front(rows), key);
      }
    }
  }

  // ----- All workers against one process

  /** Each file is a snapshot of what its worker did. */
  ghost predicate FilesOf(files: seq<Option<Snapshot>>, logs: seq<seq<Event>>) {
    |files| == |logs| && forall i :: 0 <= i < |logs| ==> files[i].Some? && SnapshotOf(files[i].value, Run(logs[i]))
  }

  lemma FilesOfFront(files: seq<Option<Snapshot>>, logs: seq<seq<Event>>)
    requires FilesOf(files, logs) && logs != []
    ensures FilesOf(Front(files), Front(logs))
    ensures Last(files).Some? && SnapshotOf(Last(files).value, Run(Last(logs)))
  {
    assert files[|files| - 1].Some?;
  }

  /** Counters always add up to what one process would have counted. */
  lemma {:induction false} CountersAddUp(files: seq<Option<Snapshot>>, logs: seq<seq<Event>>, key: Key)
    requires FilesOf(files, logs)
    ensures At(Merged(files).counters, key) == At(Run(Flatten(logs)).counters, key)
  {
    StoreTellsTheLog(Flatten(logs), key);
    if logs != [] {
      CountersAddUp(Front(files), Front(logs), key);
      FilesOfFront(files, logs);
      var rows := Last(files).value.counters;
      CountersAt(Merged(Front(files)).counters, rows, key);
      assert RowAt(rows, key) == At(Run(Last(logs)).counters, key);
      StoreTellsTheLog(Last(logs), key);
      StoreTellsTheLog(Flatten(Front(logs)), key);
      LogAppend(Flatten(Front(logs)), Last(logs), key);
    }
  }

  /** The bounds under which a series is merged: those of the first worker that has any. */
  function MergedBounds(logs: seq<seq<Event>>, key: Key): Option<seq<Bound>> {
    if logs == [] then None
    else
      var before, mine := MergedBounds(Front(logs), key), FirstBounds(Last(logs), key);
      if before.Some? then before else if mine.Some? && mine.value != [] then mine else None
  }

  /** The observations of the workers that use these bounds. */
  function ValuesUnder(logs: seq<seq<Event>>, key: Key, bounds: seq<Bound>): seq<real> {
    if logs == [] then []
    else if FirstBounds(Last(logs), key) == Some(bounds)
    then ValuesUnder(Front(logs), key, bounds) + ValuesOf(Last(logs), key)
    else ValuesUnder(Front(logs), key, bounds)
  }

  lemma {:induction false} NoneUnder(logs: seq<seq<Event>>, key: Key, bounds: seq<Bound>)
    requires MergedBounds(logs, key).None? && bounds != []
    ensures ValuesUnder(logs, key, bounds) == []
  {
    if logs != [] { NoneUnder(Front(logs), key, bounds); }
  }

  lemma CombinedHists(bounds: seq<Bound>, xs: seq<real>, ys: seq<real>)
    ensures Combined(Some(HistOf(bounds, xs)), HistOf(bounds, ys)) == HistOf(bounds, xs + ys)
  {
    forall bound { CountAppend(xs, ys, bound); }
    TotalAppend(xs, ys);
    assert Combined(Some(HistOf(bounds, xs)), HistOf(bounds, ys)).buckets == HistOf(bounds, xs + ys).buckets;
  }

  lemma {:induction false} MergedBoundsAreSome(logs: seq<seq<Event>>, key: Key)
    ensures MergedBounds(logs, key) != Some([])
  {
    if logs != [] { MergedBoundsAreSome(Front(logs), key); }
  }

  /** What merging yields for a series, in all cases. */
  lemma {:induction false} MergedHist(files: seq<Option<Snapshot>>, logs: seq<seq<Event>>, key: Key)
    requires FilesOf(files, logs)
    ensures At(Merged(files).hists, key) ==
            match MergedBounds(logs, key)
            case None => None
            case Some(bounds) => Some(HistOf(bounds, ValuesUnder(logs, key, bounds)))
  {
    if logs != [] {
      MergedHist(Front(files), Front(logs), key);
      FilesOfFront(files, logs);
      var rows, mine := Last(files).value.hists, Run(Last(logs)).hists;
      HistsAt(Merged(Front(files)).hists, rows, key);
      assert RowAt(rows, key) == At(Jsons(mine), key);
      StoreTellsTheLog(Last(logs), key);
      if key in mine {
        JsonRoundTripIff(mine[key]);
        MergedHistStep(Front(logs), Last(logs), key);
      }
      MergedBoundsAreSome(Front(logs), key);
      assert logs == Front(logs) + [Last(logs)];
    }
  }

  lemma MergedHistStep(logs: seq<seq<Event>>, log: seq<Event>, key: Key)
    requires FirstBounds(log, key).Some?
    ensures var bounds := FirstBounds(log, key).value;
            var before := match MergedBounds(logs, key)
                          case None => None
                          case Some(b) => Some(HistOf(b, ValuesUnder(logs, key, b)));
            bounds != [] ==>
              MergedBounds(logs + [log], key).Some? &&
              var b := MergedBounds(logs + [log], key).value;
              Combined(before, HistOf(bounds, ValuesOf(log, key))) == HistOf(b, ValuesUnder(logs + [log], key, b))
  {
    var bounds := FirstBounds(log, key).value;
    assert Front(logs + [log]) == logs;
    if bounds != [] {
      match MergedBounds(logs, key)
      case None => NoneUnder(logs, key, bounds); assert [] + ValuesOf(log, key) == ValuesOf(log, key);
      case Some(b) =>
        if b == bounds {
          CombinedHists(b, ValuesUnder(logs, key, b), ValuesOf(log, key));
        }
    }
  }

  /** All workers that observed the series used the same bounds, and at least one. */
  ghost predicate Agreed(logs: seq<seq<Event>>, key: Key, bounds: seq<Bound>) {
    bounds != [] && forall i :: 0 <= i < |logs| ==> FirstBounds(logs[i], key) == None || FirstBounds(logs[i], key) == Some(bounds)
  }

  lemma {:induction false} FirstOfAll(logs: seq<seq<Event>>, key: Key)
    ensures FirstBounds(Flatten(logs), key).None? <==> forall i :: 0 <= i < |logs| ==> FirstBounds(logs[i], key).None?
    ensures FirstBounds(Flatten(logs), key).Some? ==>
              exists i :: 0 <= i < |logs| && FirstBounds(logs[i], key) == FirstBounds(Flatten(logs), key)
  {
    if logs != [] {
      var front := Front(logs);
      FirstOfAll(front, key);
      LogAppend(Flatten(front), Last(logs), key);
      assert forall i :: 0 <= i < |front| ==> front[i] == logs[i];
      if FirstBounds(Flatten(front), key).Some? {
        var i :| 0 <= i < |front| && FirstBounds(front[i], key) == FirstBounds(Flatten(front), key);
        assert FirstBounds(logs[i], key).Some?;
      } else {
        assert logs[|front|] == Last(logs);
      }
    }
  }

  /** Merging loses observations exactly when some worker's bounds differ. */
  lemma {:induction false} NothingLostIff(logs: seq<seq<Event>>, key: Key, bounds: seq<Bound>)
    requires bounds != []
    ensures |ValuesUnder(logs, key, bounds)| <= |ValuesOf(Flatten(logs), key)|
    ensures |ValuesUnder(logs, key, bounds)| == |ValuesOf(Flatten(logs), key)| <==> Agreed(logs, key, bounds)
    ensures Agreed(logs, key, bounds) ==> ValuesUnder(logs, key, bounds) == ValuesOf(Flatten(logs), key)
  {
    if logs != [] {
      var front := Front(logs);
      NothingLostIff(front, key, bounds);
      LogAppend(Flatten(front), Last(logs), key);
      ObservedHasBounds(Last(logs), key);
      assert forall i :: 0 <= i < |front| ==> front[i] == logs[i];
      assert logs[|front|] == Last(logs);
      assert Agreed(logs, key, bounds) <==>
               Agreed(front, key, bounds) && (FirstBounds(Last(logs), key) == None || FirstBounds(Last(logs), key) == Some(bounds));
    }
  }

  lemma {:induction false} MergedBoundsIsSomeones(logs: seq<seq<Event>>, key: Key)
    ensures match MergedBounds(logs, key)
            case None => forall i :: 0 <= i < |logs| ==> FirstBounds(logs[i], key) == None || FirstBounds(logs[i], key) == Some([])
            case Some(b) => b != [] && exists i :: 0 <= i < |logs| && FirstBounds(logs[i], key) == Some(b)
  {
    if logs != [] {
      var front := Front(logs);
      MergedBoundsIsSomeones(front, key);
      assert forall i :: 0 <= i < |front| ==> front[i] == logs[i];
      assert logs[|front|] == Last(logs);
      if MergedBounds(front, key).Some? {
        var i :| 0 <= i < |front| && FirstBounds(front[i], key) == MergedBounds(front, key);
        assert FirstBounds(logs[i], key) == MergedBounds(logs, key);
      }
    }
  }

  /** Nobody observed the series, or everybody who did agrees on bounds. */
  ghost predicate Consistent(logs: seq<seq<Event>>, key: Key) {
    || (forall i :: 0 <= i < |logs| ==> FirstBounds(logs[i], key).None?)
    || (exists bounds :: Agreed(logs, key, bounds))
  }

  /**
   Merging the snapshots of all workers gives a series exactly as one process that observed everything would
   have it, if and only if the workers that observed it agree on its bounds.
   */
  lemma MergedEqualsOneProcessIff(files: seq<Option<Snapshot>>, logs: seq<seq<Event>>, key: Key)
    requires FilesOf(files, logs)
    ensures At(Merged(files).hists, key) == At(Run(Flatten(logs)).hists, key) <==> Consistent(logs, key)
  {
    MergedHist(files, logs, key);
    StoreTellsTheLog(Flatten(logs), key);
    match MergedBounds(logs, key)
    case None => UnmergedIff(logs, key);
    case Some(b) => NothingLost(logs, key, b);
  }

  lemma UnmergedIff(logs: seq<seq<Event>>, key: Key)
    requires MergedBounds(logs, key).None?
    ensures FirstBounds(Flatten(logs), key).None? <==> Consistent(logs, key)
  {
    FirstOfAll(logs, key);
    MergedBoundsIsSomeones(logs, key);
    if bounds :| Agreed(logs, key, bounds) {
      assert forall i :: 0 <= i < |logs| ==> FirstBounds(logs[i], key).None?;
    }
  }

  lemma NothingLost(logs: seq<seq<Event>>, key: Key, b: seq<Bound>)
    requires MergedBounds(logs, key) == Some(b)
    ensures FirstBounds(Flatten(logs), key).Some?
    ensures HistOf(b, ValuesUnder(logs, key, b)) == HistOf(FirstBounds(Flatten(logs), key).value, ValuesOf(Flatten(logs), key))
            <==> Consistent(logs, key)
  {
    MergedBoundsIsSomeones(logs, key);
    NothingLostIff(logs, key, b);
    AgreedOnMerged(logs, key, b);
    if HistOf(b, ValuesUnder(logs, key, b)) == HistOf(FirstBounds(Flatten(logs), key).value, ValuesOf(Flatten(logs), key)) {
      assert HistOf(b, ValuesUnder(logs, key, b)).count == |ValuesUnder(logs, key, b)|;
      assert Agreed(logs, key, b);
    }
  }

  /** If workers agree on any bounds at all, then on those of the one that is merged first. */
  lemma AgreedOnMerged(logs: seq<seq<Event>>, key: Key, b: seq<Bound>)
    requires b != [] && exists i :: 0 <= i < |logs| && FirstBounds(logs[i], key) == Some(b)
    ensures Consistent(logs, key) <==> Agreed(logs, key, b)
    ensures FirstBounds(Flatten(logs), key).Some?
    ensures Agreed(logs, key, b) ==> FirstBounds(Flatten(logs), key) == Some(b)
  {
    FirstOfAll(logs, key);
    var i :| 0 <= i < |logs| && FirstBounds(logs[i], key) == Some(b);
    if bounds :| Agreed(logs, key, bounds) {
      assert FirstBounds(logs[i], key) == Some(bounds);
    }
    var first :| 0 <= first < |logs| && FirstBounds(logs[first], key) == FirstBounds(Flatten(logs), key);
  }

  lemma OneObservation(key: Key, value: real, bounds: seq<Bound>)
    ensures FirstBounds([Observe(key, value, bounds)], key) == Some(bounds)
  {
    assert Front([Observe(key, value, bounds)]) == [];
  }

  /** Two workers with different bounds: whatever files they write, the merged series misses an observation. */
  lemma DifferentBoundsLose(key: Key, files: seq<Option<Snapshot>>)
    requires FilesOf(files, [[Observe(key, 1.0, [Infinity])], [Observe(key, 1.0, [Finite(2.0)])]])
    ensures At(Merged(files).hists, key) !=
            At(Run(Flatten([[Observe(key, 1.0, [Infinity])], [Observe(key, 1.0, [Finite(2.0)])]])).hists, key)
  {
    var a, b := [Observe(key, 1.0, [Infinity])], [Observe(key, 1.0, [Finite(2.0)])];
    var logs := [a, b];
    OneObservation(key, 1.0, [Infinity]);
    OneObservation(key, 1.0, [Finite(2.0)]);
    assert FirstBounds(logs[0], key) == Some([Infinity]);
    assert FirstBounds(logs[1], key) == Some([Finite(2.0)]);
    assert [Infinity][0] != [Finite(2.0)][0];
    assert !Consistent(logs, key);
    MergedEqualsOneProcessIff(files, logs, key);
  }

  // ----- The order of files

  lemma {:induction false} FlattenOrder(logs: seq<seq<Event>>, other: seq<seq<Event>>)
    requires multiset(logs) == multiset(other)
    ensures multiset(Flatten(logs)) == multiset(Flatten(other))
    decreases |logs|
  {
    if logs == [] {
      NoElements(other);
    } else {
      var a, b := TakeOut(logs, other);
      FlattenOrder(Front(logs), a + b);
      FlattenAppend(a, b);
      FlattenAppend(a, [Last(logs)]);
      FlattenAppend(a + [Last(logs)], b);
      assert Front([Last(logs)]) == [];
    }
  }

  ghost predicate SameBooks(log: seq<Event>, other: seq<Event>, key: Key) {
    CounterOf(log, key) == CounterOf(other, key) && multiset(ValuesOf(log, key)) == multiset(ValuesOf(other, key))
  }

  lemma {:induction false} LogOrder(log: seq<Event>, other: seq<Event>, key: Key)
    requires multiset(log) == multiset(other)
    ensures SameBooks(log, other, key)
    decreases |log|
  {
    if log == [] {
      NoElements(other);
    } else {
      var a, b := TakeOut(log, other);
      LogOrder(Front(log), a + b, key);
      EventInTheMiddle(Front(log), Last(log), a, b, key);
      assert Front(log) + [Last(log)] == log;
    }
  }

  lemma EventInTheMiddle(front: seq<Event>, event: Event, a: seq<Event>, b: seq<Event>, key: Key)
    requires SameBooks(front, a + b, key)
    ensures SameBooks(front + [event], a + [event] + b, key)
  {
    MiddleEvent(a, event, b, key);
    LogAppend(front, [event], key);
  }

  lemma MiddleEvent(a: seq<Event>, event: Event, b: seq<Event>, key: Key)
    ensures CounterOf(a + [event] + b, key) == Plus(CounterOf(a + b, key), CounterOf([event], key))
    ensures multiset(ValuesOf(a + [event] + b, key)) == multiset(ValuesOf(a + b, key)) + multiset(ValuesOf([event], key))
  {
    MiddleCount(a, event, b, key);
    MiddleValues(a, event, b, key);
  }

  lemma PlusSwaps(a: Option<real>, e: Option<real>, b: Option<real>)
    ensures Plus(Plus(a, e), b) == Plus(Plus(a, b), e)
  {}

  lemma MiddleCount(a: seq<Event>, event: Event, b: seq<Event>, key: Key)
    ensures CounterOf(a + [event] + b, key) == Plus(CounterOf(a + b, key), CounterOf([event], key))
  {
    LogAppend(a + [event], b, key);
    LogAppend(a, [event], key);
    LogAppend(a, b, key);
    PlusSwaps(CounterOf(a, key), CounterOf([event], key), CounterOf(b, key));
  }

  lemma MiddleValues(a: seq<Event>, event: Event, b: seq<Event>, key: Key)
    ensures multiset(ValuesOf(a + [event] + b, key)) == multiset(ValuesOf(a + b, key)) + multiset(ValuesOf([event], key))
  {
    LogAppend(a + [event], b, key);
    LogAppend(a, [event], key);
    LogAppend(a, b, key);
    MiddleOf(ValuesOf(a, key), ValuesOf([event], key), ValuesOf(b, key));
  }

  lemma MiddleOf(x: seq<real>, y: seq<real>, z: seq<real>)
    ensures multiset(x + y + z) == multiset(x + z) + multiset(y)
  {}

  /** Reading the files in another order gives the same counters. */
  lemma FileOrderKeepsCounters(files: seq<Option<Snapshot>>, logs: seq<seq<Event>>,
                               others: seq<Option<Snapshot>>, shuffled: seq<seq<Event>>, key: Key)
    requires FilesOf(files, logs) && FilesOf(others, shuffled) && multiset(logs) == multiset(shuffled)
    ensures At(Merged(files).counters, key) == At(Merged(others).counters, key)
  {
    var all, mixed := Flatten(logs), Flatten(shuffled);
    FlattenOrder(logs, shuffled);
    LogOrder(all, mixed, key);
    CountersAddUp(files, logs, key);
    CountersAddUp(others, shuffled, key);
    StoreTellsTheLog(all, key);
    StoreTellsTheLog(mixed, key);
  }

  /** The worker would have the series merged under these bounds. */
  predicate Offers(log: seq<Event>, key: Key, bounds: seq<Bound>) {
    bounds != [] && FirstBounds(log, key) == Some(bounds)
  }

  /** All bounds offered for the series are the same; workers without bounds do not matter. */
  ghost predicate OneOffer(logs: seq<seq<Event>>, key: Key) {
    forall x, y, b, c :: x in logs && y in logs && Offers(x, key, b) && Offers(y, key, c) ==> b == c
  }

  lemma {:induction false} MergedBoundsAppend(a: seq<seq<Event>>, b: seq<seq<Event>>, key: Key)
    ensures MergedBounds(a + b, key) == if MergedBounds(a, key).Some? then MergedBounds(a, key) else MergedBounds(b, key)
  {
    if b == [] {
      assert a + b == a;
    } else {
      MergedBoundsAppend(a, Front(b), key);
      assert Front(a + b) == a + Front(b);
    }
  }

  lemma {:induction false} UnderAppend(a: seq<seq<Event>>, b: seq<seq<Event>>, key: Key, bounds: seq<Bound>)
    ensures ValuesUnder(a + b, key, bounds) == ValuesUnder(a, key, bounds) + ValuesUnder(b, key, bounds)
  {
    if b == [] {
      assert a + b == a;
    } else {
      UnderAppend(a, Front(b), key, bounds);
      assert Front(a + b) == a + Front(b);
    }
  }

  lemma {:induction false} UnderOrder(logs: seq<seq<Event>>, shuffled: seq<seq<Event>>, key: Key, bounds: seq<Bound>)
    requires multiset(logs) == multiset(shuffled)
    ensures multiset(ValuesUnder(logs, key, bounds)) == multiset(ValuesUnder(shuffled, key, bounds))
    decreases |logs|
  {
    if logs == [] {
      NoElements(shuffled);
    } else {
      var a, b := TakeOut(logs, shuffled);
      UnderOrder(Front(logs), a + b, key, bounds);
      UnderInTheMiddle(a, Last(logs), b, key, bounds);
      assert logs == Front(logs) + [Last(logs)];
      UnderAppend(Front(logs), [Last(logs)], key, bounds);
    }
  }

  lemma UnderInTheMiddle(a: seq<seq<Event>>, log: seq<Event>, b: seq<seq<Event>>, key: Key, bounds: seq<Bound>)
    ensures multiset(ValuesUnder(a + [log] + b, key, bounds)) ==
            multiset(ValuesUnder(a + b, key, bounds)) + multiset(ValuesUnder([log], key, bounds))
  {
    UnderAppend(a + [log], b, key, bounds);
    UnderAppend(a, [log], key, bounds);
    UnderAppend(a, b, key, bounds);
    MiddleOf(ValuesUnder(a, key, bounds), ValuesUnder([log], key, bounds), ValuesUnder(b, key, bounds));
  }

  /** The merged bounds are offered by some worker, and there are none only if nobody offers any. */
  lemma {:induction false} MergedBoundsOffered(logs: seq<seq<Event>>, key: Key)
    ensures match MergedBounds(logs, key)
            case None => forall x, b :: x in logs ==> !Offers(x, key, b)
            case Some(b) => exists x :: x in logs && Offers(x, key, b)
  {
    if logs != [] {
      MergedBoundsOffered(Front(logs), key);
      if MergedBounds(Front(logs), key).Some? {
        var x :| x in Front(logs) && Offers(x, key, MergedBounds(logs, key).value);
        assert x in logs;
      } else {
        assert forall x :: x in logs ==> x in Front(logs) || x == Last(logs);
        if MergedBounds(logs, key).Some? {
          assert Offers(Last(logs), key, MergedBounds(logs, key).value);
        }
      }
    }
  }

  lemma SameLogs(logs: seq<seq<Event>>, shuffled: seq<seq<Event>>)
    requires multiset(logs) == multiset(shuffled)
    ensures forall x :: x in logs <==> x in shuffled
  {
    forall x ensures x in logs <==> x in shuffled {
      assert x in multiset(logs) <==> x in multiset(shuffled);
    }
  }

  lemma OneOfferAnyOrder(logs: seq<seq<Event>>, shuffled: seq<seq<Event>>, key: Key)
    requires multiset(logs) == multiset(shuffled) && OneOffer(logs, key)
    ensures MergedBounds(logs, key) == MergedBounds(shuffled, key)
  {
    SameLogs(logs, shuffled);
    MergedBoundsOffered(logs, key);
    MergedBoundsOffered(shuffled, key);
  }

  lemma OneOfferSameSeries(files: seq<Option<Snapshot>>, logs: seq<seq<Event>>,
                           others: seq<Option<Snapshot>>, shuffled: seq<seq<Event>>, key: Key)
    requires FilesOf(files, logs) && FilesOf(others, shuffled) && multiset(logs) == multiset(shuffled) && OneOffer(logs, key)
    ensures At(Merged(files).hists, key) == At(Merged(others).hists, key)
  {
    MergedHist(files, logs, key);
    MergedHist(others, shuffled, key);
    OneOfferAnyOrder(logs, shuffled, key);
    if MergedBounds(logs, key).Some? {
      var b := MergedBounds(logs, key).value;
      UnderOrder(logs, shuffled, key, b);
      SameHist(b, ValuesUnder(logs, key, b), ValuesUnder(shuffled, key, b));
    }
  }

  /** One file and its log moved to the front. */
  function ToFront<T>(xs: seq<T>, m: nat): seq<T>
    requires m < |xs|
  {
    [xs[m]] + (xs[..m] + xs[m + 1..])
  }

  lemma ToFrontShuffles<T>(xs: seq<T>, m: nat)
    requires m < |xs|
    ensures multiset(ToFront(xs, m)) == multiset(xs)
  {
    LeftOut(xs, m);
  }

  lemma ToFrontFiles(files: seq<Option<Snapshot>>, logs: seq<seq<Event>>, m: nat)
    requires FilesOf(files, logs) && m < |logs|
    ensures FilesOf(ToFront(files, m), ToFront(logs, m))
  {
    var others, shuffled := ToFront(files, m), ToFront(logs, m);
    forall i | 0 <= i < |shuffled| ensures others[i].Some? && SnapshotOf(others[i].value, Run(shuffled[i])) {
      var from := if i == 0 then m else if i <= m then i - 1 else i;
      assert others[i] == files[from] && shuffled[i] == logs[from];
    }
  }

  /** A worker whose file is read first decides the bounds. */
  lemma FirstFileDecides(files: seq<Option<Snapshot>>, logs: seq<seq<Event>>, key: Key, m: nat, c: seq<Bound>)
    requires FilesOf(files, logs) && m < |logs| && Offers(logs[m], key, c)
    ensures FilesOf(ToFront(files, m), ToFront(logs, m))
    ensures At(Merged(ToFront(files, m)).hists, key).Some?
    ensures At(Merged(ToFront(files, m)).hists, key).value.bounds == c
  {
    ToFrontFiles(files, logs, m);
    MergedHist(ToFront(files, m), ToFront(logs, m), key);
    MergedBoundsAppend([logs[m]], logs[..m] + logs[m + 1..], key);
    assert Front([logs[m]]) == [];
  }

  /** However the files are ordered, the merged series is the same. */
  ghost predicate AnyOrder(files: seq<Option<Snapshot>>, logs: seq<seq<Event>>, key: Key) {
    forall others, shuffled :: FilesOf(others, shuffled) && multiset(logs) == multiset(shuffled) ==>
      At(Merged(others).hists, key) == At(Merged(files).hists, key)
  }

  /** The merged series does not depend on the order of the files if and only if all bounds offered for it agree. */
  lemma FileOrderDoesNotMatterIff(files: seq<Option<Snapshot>>, logs: seq<seq<Event>>, key: Key)
    requires FilesOf(files, logs)
    ensures AnyOrder(files, logs, key) <==> OneOffer(logs, key)
  {
    if OneOffer(logs, key) {
      forall others, shuffled | FilesOf(others, shuffled) && multiset(logs) == multiset(shuffled)
        ensures At(Merged(others).hists, key) == At(Merged(files).hists, key)
      {
        OneOfferSameSeries(files, logs, others, shuffled, key);
      }
    } else {
      TwoOffersTwoResults(files, logs, key);
    }
  }

  lemma TwoOffersTwoResults(files: seq<Option<Snapshot>>, logs: seq<seq<Event>>, key: Key)
    requires FilesOf(files, logs) && !OneOffer(logs, key)
    ensures !AnyOrder(files, logs, key)
  {
    var x, y, b, c :| x in logs && y in logs && Offers(x, key, b) && Offers(y, key, c) && b != c;
    var i :| 0 <= i < |logs| && logs[i] == x;
    var j :| 0 <= j < |logs| && logs[j] == y;
    FirstFileDecides(files, logs, key, i, b);
    FirstFileDecides(files, logs, key, j, c);
    ToFrontShuffles(logs, i);
    ToFrontShuffles(logs, j);
    assert At(Merged(ToFront(files, i)).hists, key) != At(Merged(ToFront(files, j)).hists, key);
  }

  // ----- The registry, updated in place

  class Registry {
    var counters: map<Key, real>
    var hists: map<Key, Series>
    var gauges: Gauges

    ghost function State(): Store
      reads this
    {
      Store(counters, hists)
    }

    constructor ()
      ensures State() == EMPTY && gauges == NO_LOAD
    {
      counters, hists, gauges := map[], map[], NO_LOAD;
    }

    method Inc(key: Key, amount: real)
      modifies this
      ensures State() == Next(old(State()), Event.Inc(key, amount)) && gauges == old(gauges)
    {
      if key !in counters {
        counters := counters[key := 0.0];
      }
      counters := counters[key := counters[key] + amount];
      assert counters == AddCounter(old(counters), key, amount);
    }

    method Observe(key: Key, value: real, bounds: seq<Bound>)
      modifies this
      ensures State() == Next(old(State()), Event.Observe(key, value, bounds)) && gauges == old(gauges)
    {
      if key !in hists {
        hists := hists[key := Blank(bounds)];
      }
      var start := hists[key];
      var buckets := start.buckets;
      for index := 0 to |start.bounds|
        invariant |buckets| == |start.bounds|
        invariant forall i :: 0 <= i < |buckets| ==>
                    buckets[i] == if i < index then Bumped(start.bounds, start.buckets, value)[i] else start.buckets[i]
      {
        if Reaches(value, start.bounds[index]) {
          buckets := buckets[index := buckets[index] + 1];
        }
      }
      assert buckets == Bumped(start.bounds, start.buckets, value);
      hists := hists[key := Hist(start.bounds, buckets, start.count + 1, start.sum + value)];
      assert hists == old(hists)[key := Observed(start, value)];
    }

    method AddHistogram(key: Key, h: Series)
      modifies this
      ensures hists == old(hists)[key := Combined(At(old(hists), key), h)]
      ensures counters == old(counters) && gauges == old(gauges)
    {
      if key !in hists {
        hists := hists[key := h];
        return;
      }
      var existing := hists[key];
      if existing.bounds != h.bounds {
        assert hists == hists[key := existing];
        return;
      }
      var buckets := existing.buckets;
      for index := 0 to |h.buckets|
        invariant |buckets| == |existing.buckets|
        invariant forall i :: 0 <= i < |buckets| ==>
                    buckets[i] == existing.buckets[i] + if i < index then h.buckets[i] else 0
      {
        buckets := buckets[index := buckets[index] + h.buckets[index]];
      }
      assert buckets == Combined(Some(existing), h).buckets;
      hists := hists[key := Hist(existing.bounds, buckets, existing.count + h.count, existing.sum + h.sum)];
    }

    method MergeFile(s: Snapshot)
      modifies this
      ensures counters == MergeCounters(old(counters), s.counters)
      ensures hists == MergeHists(old(hists), s.hists)
      ensures gauges == AddGauges(old(gauges), s.gauges)
    {
      for i := 0 to |s.counters|
        invariant counters == MergeCounters(old(counters), s.counters[..i])
        invariant hists == old(hists) && gauges == old(gauges)
      {
        assert Front(s.counters[..i + 1]) == s.counters[..i];
        counters := AddCounter(counters, s.counters[i].0, s.counters[i].1);
      }
      assert s.counters[..|s.counters|] == s.counters;
      for i := 0 to |s.hists|
        invariant hists == MergeHists(old(hists), s.hists[..i])
        invariant counters == MergeCounters(old(counters), s.counters) && gauges == old(gauges)
      {
        assert Front(s.hists[..i + 1]) == s.hists[..i];
        var h := FromJson(s.hists[i].1);
        if h.Some? {
          AddHistogram(s.hists[i].0, h.value);
        }
      }
      assert s.hists[..|s.hists|] == s.hists;
      var pools: map<string, int>, todo := map[], POOLS;
      while todo != {}
        invariant todo <= POOLS && pools.Keys == POOLS - todo
        invariant forall pool :: pool in pools ==> pools[pool] == Occupancy(gauges, pool) + Occupancy(s.gauges, pool)
        invariant counters == MergeCounters(old(counters), s.counters) && hists == MergeHists(old(hists), s.hists)
        invariant gauges == old(gauges)
        decreases todo
      {
        var pool :| pool in todo;
        pools := pools[pool := Occupancy(gauges, pool) + Occupancy(s.gauges, pool)];
        todo := todo - {pool};
      }
      assert pools == AddGauges(gauges, s.gauges).pools;
      gauges := Gauges(gauges.inFlight + s.gauges.inFlight, pools);
    }

    /** Fill an empty registry from the files. */
    method MergeSnapshots(files: seq<Option<Snapshot>>)
      requires State() == EMPTY && gauges == NO_LOAD
      modifies this
      ensures State() == Merged(files) && gauges == MergedGauges(files)
    {
      for i := 0 to |files|
        invariant State() == Merged(files[..i]) && gauges == MergedGauges(files[..i])
      {
        assert Front(files[..i + 1]) == files[..i];
        if files[i].Some? {
          MergeFile(files[i].value);
        }
      }
      assert files[..|files|] == files;
    }

    /** The file form of the whole registry, with the occupancy read at that moment. */
    method TakeSnapshot(local: Gauges) returns (s: Snapshot)
      ensures SnapshotOf(s, State()) && s.gauges == local
    {
      var counterRows := Rows(counters);
      var histRows := Rows(Jsons(hists));
      s := Snapshot(counterRows, histRows, local);
    }
  }

  method Rows<V>(m: map<Key, V>) returns (rows: seq<(Key, V)>)
    ensures Lists(rows, m)
  {
    rows := [];
    var todo := m.Keys;
    while todo != {}
      invariant todo <= m.Keys
      invariant forall i :: 0 <= i < |rows| ==> rows[i].0 in m && rows[i].0 !in todo
      invariant forall i, j :: 0 <= i < j < |rows| ==> rows[i].0 != rows[j].0
      invariant forall key :: RowAt(rows, key) == if key in todo then None else At(m, key)
      decreases todo
    {
      var key :| key in todo;
      var more := rows + [(key, m[key])];
      forall k ensures RowAt(more, k) == if k in todo - {key} then None else At(m, k) {
        assert Front(more) == rows;
      }
      rows := more;
      todo := todo - {key};
    }
  }
}
