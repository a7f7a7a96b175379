/**
 The daily token quota of a tenant. A call checks the day's total before it runs and adds its own usage after,
 so calls in flight can push the total past the limit; this module says by how much at most.
 */
module Quota {
  import opened Sequences

  type Day = int
  type CallId = nat

  datatype Usage = Usage(prompt: int, completion: int, total: int)
  datatype Row = Row(prompt: int, completion: int, total: int, requests: int, cacheHits: int)

  type Books = map<(string, Day), Row>

  const BLANK := Row(0, 0, 0, 0, 0)

  /** A reported total wins; without one it is the sum of the parts. */
  function Normalized(u: Usage): Usage {
    u.(total := if u.total != 0 then u.total else u.prompt + u.completion)
  }

  function RowOf(books: Books, tenant: string, day: Day): Row {
    if (tenant, day) in books then books[(tenant, day)] else BLANK
  }

  function Charge(row: Row, usage: Usage): Row {
    var u := Normalized(usage);
    Row(row.prompt + u.prompt, row.completion + u.completion, row.total + u.total, row.requests + 1, row.cacheHits)
  }

  class MemoryGatewayStore {
    var books: Books

    constructor ()
      ensures books == map[]
    {
      books := map[];
    }

    /** Reading a row opens it. */
    method GetQuota(tenant: string, day: Day) returns (row: Row)
      modifies this
      ensures row == RowOf(old(books), tenant, day)
      ensures books == old(books)[(tenant, day) := row]
    {
      if (tenant, day) !in books {
        books := books[(tenant, day) := BLANK];
      }
      row := books[(tenant, day)];
      assert row == RowOf(old(books), tenant, day) && books == old(books)[(tenant, day) := row];
    }

    method AddUsage(tenant: string, usage: Usage, day: Day) returns (row: Row)
      modifies this
      ensures var was := RowOf(old(books), tenant, day);
              row == Row(was.prompt + usage.prompt, was.completion + usage.completion,
                         was.total + (if usage.total != 0 then usage.total else usage.prompt + usage.completion),
                         was.requests + 1, was.cacheHits)
      ensures row == Charge(RowOf(old(books), tenant, day), usage)
      ensures books == old(books)[(tenant, day) := row]
    {
      var u := Normalized(usage);
      row := GetQuota(tenant, day);
      row := row.(prompt := row.prompt + u.prompt);
      row := row.(completion := row.completion + u.completion);
      row := row.(total := row.total + u.total);
      row := row.(requests := row.requests + 1);
      books := books[(tenant, day) := row];
    }

    method AddCacheHit(tenant: string, day: Day)
      modifies this
      ensures var was := RowOf(old(books), tenant, day);
              books == old(books)[(tenant, day) := was.(cacheHits := was.cacheHits + 1)]
    {
      var row := GetQuota(tenant, day);
      books := books[(tenant, day) := row.(cacheHits := row.cacheHits + 1)];
    }

    /** The check before a call: `enforced` is the policy's switch, and a limit of zero or less switches it off. */
    method AssertQuota(tenant: string, day: Day, enforced: bool, limit: int) returns (ok: bool)
      modifies this
      ensures ok == Allows(old(books), tenant, day, enforced, limit)
      ensures books == Next(State(old(books), map[]), limit, Admit(0, Flight(tenant, enforced), day)).books
      ensures forall t, d :: RowOf(books, t, d) == RowOf(old(books), t, d)
    {
      if !enforced || limit <= 0 {
        return true;
      }
      var row := GetQuota(tenant, day);
      ok := row.total < limit;
    }
  }

  predicate Allows(books: Books, tenant: string, day: Day, enforced: bool, limit: int) {
    !enforced || limit <= 0 || RowOf(books, tenant, day).total < limit
  }

  // ----- Concurrent calls as a run

  /** A call between its check and its end. */
  datatype Flight = Flight(tenant: string, enforced: bool)

  datatype Event =
    | Admit(id: CallId, flight: Flight, day: Day)
    | Commit(id: CallId, flight: Flight, day: Day, usage: Usage)
    | CacheHit(id: CallId, flight: Flight, day: Day)
    | Abort(id: CallId)

  datatype State = State(books: Books, flying: map<CallId, Flight>)

  const IDLE := State(map[], map[])

  function Next(st: State, limit: int, event: Event): State {
    match event
    case Admit(id, flight, day) =>
      var open := if !flight.enforced || limit <= 0 then st.books
                  else st.books[(flight.tenant, day) := RowOf(st.books, flight.tenant, day)];
      State(open, if Allows(st.books, flight.tenant, day, flight.enforced, limit) then st.flying[id := flight] else st.flying)
    case Commit(id, flight, day, usage) =>
      State(st.books[(flight.tenant, day) := Charge(RowOf(st.books, flight.tenant, day), usage)], st.flying - {id})
    case CacheHit(id, flight, day) =>
      var was := RowOf(st.books, flight.tenant, day);
      State(st.books[(flight.tenant, day) := was.(cacheHits := was.cacheHits + 1)], st.flying - {id})
    case Abort(id) => st.(flying := st.flying - {id})
  }

  function Run(limit: int, events: seq<Event>): State {
    if events == [] then IDLE else Next(Run(limit, Front(events)), limit, Last(events))
  }

  /** Calls of one tenant in flight that passed the check. */
  function Checked(flying: map<CallId, Flight>, tenant: string): set<CallId> {
    set id | id in flying && flying[id] == Flight(tenant, true)
  }

  /** No event so far happened after `day`. */
  ghost predicate NotAfter(day: Day, events: seq<Event>) {
    forall i :: 0 <= i < |events| && !events[i].Abort? ==> events[i].day <= day
  }

  /**
   Fresh ids at the check, ends only for calls in flight, a clock that does not go back, usages that are not
   negative and at most `most` tokens for a checked call.
   */
  ghost predicate Admissible(before: seq<Event>, limit: int, most: nat, event: Event) {
    var st := Run(limit, before);
    && (event.Abort? || NotAfter(event.day, before))
    && match event
       case Admit(id, flight, _) => id !in st.flying
       case Commit(id, flight, _, usage) =>
         && id in st.flying && st.flying[id] == flight
         && 0 <= Normalized(usage).total && (flight.enforced ==> Normalized(usage).total <= most)
       case CacheHit(id, flight, _) => id in st.flying && st.flying[id] == flight
       case Abort(id) => id in st.flying
  }

  /** An admissible run in which at most `cap` checked calls of the tenant are ever in flight. */
  ghost predicate AdmissibleRun(limit: int, tenant: string, cap: nat, most: nat, events: seq<Event>) {
    && |Checked(Run(limit, events).flying, tenant)| <= cap
    && (events != [] ==>
          && AdmissibleRun(limit, tenant, cap, most, Front(events))
          && Admissible(Front(events), limit, most, Last(events)))
  }

  // ----- What the books record

  function Charges(event: Event, tenant: string, day: Day): bool {
    event.Commit? && event.flight.tenant == tenant && event.day == day
  }

  /**
   Tokens the tenant committed on a day, over all its calls or only the unchecked ones: of each call the total it
   reported, or where it reported none the sum of prompt and completion.
   */
  function Committed(events: seq<Event>, tenant: string, day: Day, onlyUnchecked: bool): int {
    if events == [] then 0
    else
      Committed(Front(events), tenant, day, onlyUnchecked) +
      (if Charges(Last(events), tenant, day) && !(onlyUnchecked && Last(events).flight.enforced)
       then
         var usage := Last(events).usage;
         if usage.total != 0 then usage.total else usage.prompt + usage.completion
       else 0)
  }

  /** Prompt tokens, completion tokens, calls and cache hits of the tenant on a day. */
  function Tally(events: seq<Event>, tenant: string, day: Day): (int, int, nat, nat) {
    if events == [] then (0, 0, 0, 0)
    else
      var sums, event := Tally(Front(events), tenant, day), Last(events);
      if Charges(event, tenant, day) then (sums.0 + event.usage.prompt, sums.1 + event.usage.completion, sums.2 + 1, sums.3)
      else if event.CacheHit? && event.flight.tenant == tenant && event.day == day then (sums.0, sums.1, sums.2, sums.3 + 1)
      else sums
  }

  /** Whatever the interleaving: a row is the sum of everything committed for that tenant that day. */
  lemma {:induction false} BooksBalance(limit: int, events: seq<Event>, tenant: string, day: Day)
    ensures var row := RowOf(Run(limit, events).books, tenant, day);
            && row.total == Committed(events, tenant, day, false)
            && (row.prompt, row.completion, row.requests, row.cacheHits) == Tally(events, tenant, day)
  {
    if events != [] {
      BooksBalance(limit, Front(events), tenant, day);
    }
  }

  // ----- The overshoot bound

  /**
   A day that still takes checks: once its total has reached the limit, every checked call in flight may
   still add `most`, and the bound has that room left. A day gone by is simply within the bound.
   */
  ghost predicate Bounded(limit: int, cap: nat, most: nat, total: int, flying: nat, unchecked: int, passed: bool) {
    var bound := limit - 1 + cap * most + unchecked;
    && 0 <= unchecked
    && total <= bound
    && (!passed && total >= limit ==> total + flying * most <= bound)
  }

  lemma Times(a: nat, b: nat, most: nat)
    requires a <= b
    ensures a * most <= b * most && (b == a + 1 ==> b * most == a * most + most)
  {}

  /** One event as the day's total sees it; `delta` is what it adds and `exempt` how much of that is unchecked. */
  lemma DayStaysBounded(limit: int, cap: nat, most: nat, total: int, flying: nat, unchecked: int, passed: bool,
                        delta: nat, exempt: nat, flying': nat, passed': bool)
    requires Bounded(limit, cap, most, total, flying, unchecked, passed) && flying <= cap && flying' <= cap
    requires passed ==> passed' && delta == 0
    requires exempt == delta || (exempt == 0 && delta <= most && flying' + 1 == flying)
    requires flying' <= flying || passed' || total < limit
    requires flying' > flying ==> delta == 0
    ensures Bounded(limit, cap, most, total + delta, flying', unchecked + exempt, passed')
  {
    Times(flying, cap, most);
    Times(flying', cap, most);
    if flying' <= flying {
      Times(flying', flying, most);
    }
  }

  lemma {:induction false} DayToComeIsBlank(events: seq<Event>, tenant: string, today: Day, day: Day)
    requires NotAfter(today, events) && today < day
    ensures Committed(events, tenant, day, false) == 0
  {
    if events != [] {
      assert Last(events) == events[|events| - 1];
      assert forall i :: 0 <= i < |events| - 1 ==> Front(events)[i] == events[i];
      DayToComeIsBlank(Front(events), tenant, today, day);
    }
  }

  lemma CheckedAfter(flying: map<CallId, Flight>, tenant: string, id: CallId, flight: Flight)
    ensures id !in flying ==>
              |Checked(flying[id := flight], tenant)| ==
              |Checked(flying, tenant)| + (if flight == Flight(tenant, true) then 1 else 0)
    ensures id in flying ==>
              |Checked(flying - {id}, tenant)| ==
              |Checked(flying, tenant)| - (if flying[id] == Flight(tenant, true) then 1 else 0)
  {
    var rest := Checked(flying, tenant) - {id};
    if id !in flying {
      assert rest == Checked(flying, tenant);
      assert Checked(flying[id := flight], tenant) == if flight == Flight(tenant, true) then rest + {id} else rest;
    } else {
      assert Checked(flying - {id}, tenant) == rest;
      assert Checked(flying, tenant) == if flying[id] == Flight(tenant, true) then rest + {id} else rest;
    }
  }

  ghost predicate DayBounded(limit: int, cap: nat, most: nat, events: seq<Event>, tenant: string, day: Day) {
    Bounded(limit, cap, most, Committed(events, tenant, day, false), |Checked(Run(limit, events).flying, tenant)|,
            Committed(events, tenant, day, true), !NotAfter(day, events))
  }

  lemma {:induction false} EveryDayIsBounded(limit: int, tenant: string, cap: nat, most: nat, events: seq<Event>, day: Day)
    requires limit > 0 && AdmissibleRun(limit, tenant, cap, most, events)
    ensures DayBounded(limit, cap, most, events, tenant, day)
  {
    if events != [] {
      EveryDayIsBounded(limit, tenant, cap, most, Front(events), day);
      EventKeepsDayBounded(limit, tenant, cap, most, events, day);
    } else {
      Times(0, cap, most);
    }
  }

  lemma EventKeepsDayBounded(limit: int, tenant: string, cap: nat, most: nat, events: seq<Event>, day: Day)
    requires limit > 0 && events != [] && AdmissibleRun(limit, tenant, cap, most, events)
    requires DayBounded(limit, cap, most, Front(events), tenant, day)
    ensures DayBounded(limit, cap, most, events, tenant, day)
  {
    var before, event := Front(events), Last(events);
    var st := Run(limit, before);
    assert event == events[|before|];
    assert forall i :: 0 <= i < |before| ==> before[i] == events[i];
    var passed, passed' := !NotAfter(day, before), !NotAfter(day, events);
    var flight := if event.Admit? then event.flight else Flight("", false);
    CheckedAfter(st.flying, tenant, event.id, flight);
    BooksBalance(limit, before, tenant, day);
    if event.Admit? && event.day < day {
      DayToComeIsBlank(before, tenant, event.day, day);
    }
    var delta := if Charges(event, tenant, day) then Normalized(event.usage).total else 0;
    var exempt := if Charges(event, tenant, day) && !event.flight.enforced then delta else 0;
    DayStaysBounded(limit, cap, most, Committed(before, tenant, day, false), |Checked(st.flying, tenant)|,
                    Committed(before, tenant, day, true), passed,
                    delta, exempt, |Checked(Run(limit, events).flying, tenant)|, passed');
  }

  /**
   Over every interleaving, on every day: the recorded total exceeds the limit by less than one call's worth
   for each checked call that could be in flight, plus what unchecked calls added.
   */
  lemma OvershootIsBounded(limit: int, tenant: string, cap: nat, most: nat, events: seq<Event>, day: Day)
    requires limit > 0 && AdmissibleRun(limit, tenant, cap, most, events)
    ensures RowOf(Run(limit, events).books, tenant, day).total
         <= limit - 1 + cap * most + Committed(events, tenant, day, true)
  {
    EveryDayIsBounded(limit, tenant, cap, most, events, day);
    BooksBalance(limit, events, tenant, day);
  }

  // ----- The bound is reached

  const CALL := Flight("t", true)

  /** Calls `0..n` of the tenant are in flight, and no other. */
  ghost predicate Airborne(st: State, n: nat, total: int) {
    && (forall id: nat :: id in st.flying <==> id < n)
    && (forall id :: id in st.flying ==> st.flying[id] == CALL)
    && RowOf(st.books, "t", 0).total == total
  }

  lemma {:induction false} AirborneCount(flying: map<CallId, Flight>, n: nat)
    requires forall id: nat :: id in flying <==> id < n
    requires forall id :: id in flying ==> flying[id] == CALL
    ensures |Checked(flying, "t")| == n
  {
    if n == 0 {
      assert flying == map[];
    } else {
      var fewer := flying - {n - 1};
      AirborneCount(fewer, n - 1);
      CheckedAfter(flying, "t", n - 1, CALL);
    }
  }

  ghost predicate AllOnDayZero(events: seq<Event>) {
    forall i :: 0 <= i < |events| ==> !events[i].Abort? && events[i].day == 0
  }

  /** A run of checked calls of one tenant on one day, with `n` of them in flight and `total` recorded. */
  ghost predicate Built(limit: int, cap: nat, most: nat, events: seq<Event>, n: nat, total: int) {
    && AdmissibleRun(limit, "t", cap, most, events) && AllOnDayZero(events)
    && Airborne(Run(limit, events), n, total)
    && Committed(events, "t", 0, true) == 0
  }

  lemma Grow(limit: int, cap: nat, most: nat, events: seq<Event>, event: Event, n: nat, total: int)
    requires AdmissibleRun(limit, "t", cap, most, events) && AllOnDayZero(events) && Committed(events, "t", 0, true) == 0
    requires (event.Admit? || event.Commit?) && event.day == 0 && event.flight == CALL
    requires Admissible(events, limit, most, event)
    requires Airborne(Next(Run(limit, events), limit, event), n, total) && n <= cap
    ensures Built(limit, cap, most, events + [event], n, total)
  {
    assert Front(events + [event]) == events;
    AirborneCount(Run(limit, events + [event]).flying, n);
  }

  /** One more call passes the check. */
  lemma AdmitOne(limit: int, cap: nat, most: nat, before: seq<Event>, n: nat, total: int) returns (events: seq<Event>)
    requires Built(limit, cap, most, before, n, total) && total < limit && n < cap
    ensures Built(limit, cap, most, events, n + 1, total)
  {
    Grow(limit, cap, most, before, Admit(n, CALL, 0), n + 1, total);
    events := before + [Admit(n, CALL, 0)];
  }

  /** A call in flight commits. */
  lemma CommitOne(limit: int, cap: nat, most: nat, before: seq<Event>, n: nat, total: int, tokens: nat) returns (events: seq<Event>)
    requires Built(limit, cap, most, before, n, total) && 0 < n <= cap && tokens <= most
    ensures Built(limit, cap, most, events, n - 1, total + tokens)
  {
    var commit := Commit(n - 1, CALL, 0, Usage(tokens, 0, 0));
    Grow(limit, cap, most, before, commit, n - 1, total + tokens);
    events := before + [commit];
  }

  /** Calls one after the other, each committing one token. */
  lemma {:induction false} WarmUp(limit: int, cap: nat, most: nat, n: nat) returns (events: seq<Event>)
    requires n < limit && cap > 0 && most > 0
    ensures Built(limit, cap, most, events, 0, n)
  {
    if n == 0 {
      events := [];
      AirborneCount(IDLE.flying, 0);
    } else {
      var before := WarmUp(limit, cap, most, n - 1);
      var aloft := AdmitOne(limit, cap, most, before, 0, n - 1);
      events := CommitOne(limit, cap, most, aloft, 1, n - 1, 1);
    }
  }

  /** As many calls as may be in flight pass the check before any of them commits. */
  lemma {:induction false} TakeOff(limit: int, cap: nat, most: nat, before: seq<Event>, total: int, n: nat) returns (events: seq<Event>)
    requires Built(limit, cap, most, before, 0, total) && total < limit && n <= cap
    ensures Built(limit, cap, most, events, n, total)
  {
    if n == 0 {
      events := before;
    } else {
      var fewer := TakeOff(limit, cap, most, before, total, n - 1);
      events := AdmitOne(limit, cap, most, fewer, n - 1, total);
    }
  }

  /** All of them commit in full. */
  lemma {:induction false} LandAll(limit: int, cap: nat, most: nat, before: seq<Event>, total: int, n: nat) returns (events: seq<Event>)
    requires Built(limit, cap, most, before, n, total) && n <= cap
    ensures Built(limit, cap, most, events, 0, total + n * most)
    decreases n
  {
    if n == 0 {
      events := before;
    } else {
      var fewer := CommitOne(limit, cap, most, before, n, total, most);
      Times(n - 1, n, most);
      events := LandAll(limit, cap, most, fewer, total + most, n - 1);
    }
  }

  /**
   The bound cannot be lowered, whatever the limit, the number of calls in flight and the size of a call: there is
   an interleaving of checked calls alone that records exactly that much.
   */
  lemma OvershootIsReached(limit: int, cap: nat, most: nat) returns (events: seq<Event>)
    requires limit > 0 && cap > 0 && most > 0
    ensures AdmissibleRun(limit, "t", cap, most, events)
    ensures Committed(events, "t", 0, true) == 0
    ensures RowOf(Run(limit, events).books, "t", 0).total == limit - 1 + cap * most
  {
    var warm := WarmUp(limit, cap, most, limit - 1);
    var aloft := TakeOff(limit, cap, most, warm, limit - 1, cap);
    events := LandAll(limit, cap, most, aloft, limit - 1, cap);
  }
}
