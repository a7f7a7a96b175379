/**
 The circuit breaker around model calls. Calls of many threads interleave; each guard and each record is one
 step under the lock, so a run is a list of those steps with a clock that never goes back.
 */
module Circuit {
  import opened Sequences

  datatype BreakerState = BreakerState(failures: int, openedAt: Option<real>, probing: bool)

  const CLOSED := BreakerState(0, None, false)

  datatype Event = Guard(now: real) | Success | Failure(now: real)

  /**
   What the wrapped call did. A quota refusal, a nested open circuit and a cancellation (or anything else that is
   not an ordinary exception) leave without recording anything.
   */
  datatype Outcome = Returned | QuotaExceeded | NestedCircuitOpen | Cancelled | Failed(now: real)

  /** One step: the new state, and whether a guard let its call through. */
  function Step(st: BreakerState, threshold: int, cooldown: real, event: Event): (BreakerState, bool) {
    match event
    case Guard(now) =>
      if threshold <= 0 || st.openedAt.None? then (st, true)
      else if now - st.openedAt.value < cooldown || st.probing then (st, false)
      else (st.(probing := true), true)
    case Success => (CLOSED, true)
    case Failure(now) =>
      if threshold <= 0 then (st.(probing := false), true)
      else
        (BreakerState(st.failures + 1, if st.failures + 1 >= threshold then Some(now) else st.openedAt, false), true)
  }

  class Breaker {
    var failures: int
    var openedAt: Option<real>
    var probeInFlight: bool

    ghost function State(): BreakerState
      reads this
    {
      BreakerState(failures, openedAt, probeInFlight)
    }

    constructor ()
      ensures State() == CLOSED
    {
      failures, openedAt, probeInFlight := 0, None, false;
    }

    method Guard(threshold: int, cooldown: real, now: real) returns (admitted: bool)
      modifies this
      ensures (State(), admitted) == Step(old(State()), threshold, cooldown, Event.Guard(now))
    {
      if threshold <= 0 || openedAt.None? {
        return true;
      }
      if now - openedAt.value < cooldown || probeInFlight {
        return false;
      }
      probeInFlight := true;
      return true;
    }

    method RecordSuccess()
      modifies this
      ensures State() == BreakerState(0, None, false)
      ensures forall threshold, cooldown :: State() == Step(old(State()), threshold, cooldown, Success).0
    {
      failures, openedAt, probeInFlight := 0, None, false;
    }

    method RecordFailure(threshold: int, cooldown: real, now: real)
      modifies this
      ensures State() == Step(old(State()), threshold, cooldown, Failure(now)).0
    {
      probeInFlight := false;
      if threshold <= 0 {
        return;
      }
      failures := failures + 1;
      if failures >= threshold {
        openedAt := Some(now);
      }
    }

    /** One whole call that nothing interrupts; `outcome` is what the upstream does if it is reached. */
    method Call(threshold: int, cooldown: real, now: real, outcome: Outcome) returns (admitted: bool)
      modifies this
      ensures admitted <==>
                threshold <= 0 || old(openedAt).None? || (now - old(openedAt).value >= cooldown && !old(probeInFlight))
      ensures !admitted ==> State() == old(State())
      ensures admitted && outcome.Returned? ==> failures == 0 && openedAt.None? && !probeInFlight
      ensures admitted && outcome.Failed? ==>
                && failures == (if threshold > 0 then old(failures) + 1 else old(failures))
                && openedAt == (if 0 < threshold <= failures then Some(outcome.now) else old(openedAt))
                && !probeInFlight
      ensures admitted && !outcome.Returned? && !outcome.Failed? ==>
                && failures == old(failures) && openedAt == old(openedAt)
                && probeInFlight == (old(probeInFlight) || (threshold > 0 && openedAt.Some?))
      ensures admitted == Step(old(State()), threshold, cooldown, Event.Guard(now)).1
      ensures State() == RunFrom(old(State()), threshold, cooldown, CallEvents(now, admitted, outcome))
    {
      ghost var before := State();
      admitted := Guard(threshold, cooldown, now);
      ghost var guard := [Event.Guard(now)];
      assert Front(guard) == [] && RunFrom(before, threshold, cooldown, guard) == State();
      if admitted {
        match outcome
        case Returned =>
          RecordSuccess();
          assert Front(guard + [Success]) == guard;
        case Failed(later) =>
          RecordFailure(threshold, cooldown, later);
          assert Front(guard + [Failure(later)]) == guard;
        case QuotaExceeded =>
        case NestedCircuitOpen =>
        case Cancelled =>
      }
    }
  }

  /** The steps one call takes, by how it ends. */
  function CallEvents(now: real, admitted: bool, outcome: Outcome): seq<Event> {
    if !admitted then [Guard(now)]
    else match outcome
      case Returned => [Guard(now)] + [Success]
      case Failed(later) => [Guard(now)] + [Failure(later)]
      case QuotaExceeded => [Guard(now)]
      case NestedCircuitOpen => [Guard(now)]
      case Cancelled => [Guard(now)]
  }

  /**
   A call that was let through, on the fields: a failure raises the streak by one and opens the breaker at the
   threshold, a success clears everything, and every other way out leaves the streak and the time of opening.
   */
  lemma CallOnTheFields(st: BreakerState, threshold: int, cooldown: real, now: real, outcome: Outcome)
    requires threshold > 0 && Step(st, threshold, cooldown, Event.Guard(now)).1
    ensures var after := RunFrom(st, threshold, cooldown, CallEvents(now, true, outcome));
            match outcome
            case Returned => after == BreakerState(0, None, false)
            case Failed(later) =>
              after == BreakerState(st.failures + 1, if st.failures + 1 >= threshold then Some(later) else st.openedAt, false)
            case _ => after.failures == st.failures && after.openedAt == st.openedAt && (after.probing <==> st.probing || st.openedAt.Some?)
  {
    GuardThen(st, threshold, cooldown, now, Success);
    if outcome.Failed? {
      GuardThen(st, threshold, cooldown, now, Failure(outcome.now));
    }
  }

  lemma GuardThen(st: BreakerState, threshold: int, cooldown: real, now: real, event: Event)
    ensures var guarded := Step(st, threshold, cooldown, Event.Guard(now)).0;
            && RunFrom(st, threshold, cooldown, [Event.Guard(now)]) == guarded
            && RunFrom(st, threshold, cooldown, [Event.Guard(now)] + [event]) == Step(guarded, threshold, cooldown, event).0
  {
    assert Front([Event.Guard(now)]) == [];
    assert Front([Event.Guard(now)] + [event]) == [Event.Guard(now)];
  }

  function RunFrom(st: BreakerState, threshold: int, cooldown: real, events: seq<Event>): BreakerState {
    if events == [] then st else Step(RunFrom(st, threshold, cooldown, Front(events)), threshold, cooldown, Last(events)).0
  }

  function Run(threshold: int, cooldown: real, events: seq<Event>): BreakerState {
    RunFrom(CLOSED, threshold, cooldown, events)
  }

  /** The guard at position `i` of a run let its call through. */
  predicate Admitted(threshold: int, cooldown: real, events: seq<Event>, i: nat) {
    i < |events| && events[i].Guard? && Step(Run(threshold, cooldown, events[..i]), threshold, cooldown, events[i]).1
  }

  // ----- Reading a run without the breaker's state

  /** Consecutive recorded failures since the last recorded success. */
  function Streak(events: seq<Event>): nat {
    if events == [] then 0
    else match Last(events)
      case Guard(_) => Streak(Front(events))
      case Success => 0
      case Failure(_) => Streak(Front(events)) + 1
  }

  /** When the latest failure was recorded, if any was. */
  function LatestFailure(events: seq<Event>): Option<real> {
    if events == [] then None
    else if Last(events).Failure? then Some(Last(events).now)
    else LatestFailure(Front(events))
  }

  /** Where the guards since the latest record begin. */
  function SinceRecord(events: seq<Event>): (start: nat)
    ensures start <= |events|
    ensures forall i :: start <= i < |events| ==> events[i].Guard?
    ensures start > 0 ==> !events[start - 1].Guard?
  {
    if events == [] || !Last(events).Guard? then |events| else SinceRecord(Front(events))
  }

  /** Some guard since the latest record was let through. */
  predicate ProbedSinceRecord(threshold: int, cooldown: real, events: seq<Event>) {
    exists i :: SinceRecord(events) <= i < |events| && Admitted(threshold, cooldown, events, i)
  }

  lemma AdmittedInPrefix(threshold: int, cooldown: real, events: seq<Event>, i: nat)
    requires events != [] && i < |events| - 1
    ensures Admitted(threshold, cooldown, events, i) == Admitted(threshold, cooldown, Front(events), i)
  {
    assert Front(events)[..i] == events[..i];
  }

  lemma {:induction false} StreakAndFailure(events: seq<Event>)
    ensures Streak(events) > 0 ==> LatestFailure(events).Some?
  {
    if events != [] { StreakAndFailure(Front(events)); }
  }

  lemma ProbedAfterGuard(threshold: int, cooldown: real, events: seq<Event>)
    requires events != [] && Last(events).Guard?
    ensures ProbedSinceRecord(threshold, cooldown, events) <==>
              || ProbedSinceRecord(threshold, cooldown, Front(events))
              || Admitted(threshold, cooldown, events, |events| - 1)
  {
    var before, n := Front(events), |events| - 1;
    assert SinceRecord(events) == SinceRecord(before) <= n;
    if ProbedSinceRecord(threshold, cooldown, before) {
      var i :| SinceRecord(before) <= i < n && Admitted(threshold, cooldown, before, i);
      AdmittedInPrefix(threshold, cooldown, events, i);
    }
    if ProbedSinceRecord(threshold, cooldown, events) {
      var i :| SinceRecord(events) <= i < |events| && Admitted(threshold, cooldown, events, i);
      if i < n {
        AdmittedInPrefix(threshold, cooldown, events, i);
      }
    }
  }

  /** What the three fields mean in terms of the events alone. */
  lemma {:induction false} FieldsTellTheRun(threshold: int, cooldown: real, events: seq<Event>)
    requires threshold > 0
    ensures var st := Run(threshold, cooldown, events);
            && st.failures == Streak(events)
            && (st.openedAt.Some? <==> Streak(events) >= threshold)
            && (st.openedAt.Some? ==> st.openedAt == LatestFailure(events))
            && (st.probing <==> st.openedAt.Some? && ProbedSinceRecord(threshold, cooldown, events))
  {
    if events != [] {
      FieldsTellTheRun(threshold, cooldown, Front(events));
      var before, after := Front(events), Last(events);
      var n := |before|;
      assert events[..n] == before && events[n] == after;
      if after.Guard? {
        ProbedAfterGuard(threshold, cooldown, events);
      } else {
        assert SinceRecord(events) == |events|;
      }
    }
  }

  /**
   The admission law: a guard lets its call through exactly if fewer than `threshold` failures were recorded in
   a row, or the cooldown since the latest one is over and no other call was let through since the latest record.
   */
  lemma GuardAdmitsIff(threshold: int, cooldown: real, events: seq<Event>, j: nat)
    requires threshold > 0 && j < |events| && events[j].Guard?
    ensures Streak(events[..j]) >= threshold ==> LatestFailure(events[..j]).Some?
    ensures Admitted(threshold, cooldown, events, j) <==>
              || Streak(events[..j]) < threshold
              || (&& events[j].now - LatestFailure(events[..j]).value >= cooldown
                  && !ProbedSinceRecord(threshold, cooldown, events[..j]))
  {
    FieldsTellTheRun(threshold, cooldown, events[..j]);
    StreakAndFailure(events[..j]);
  }

  lemma {:induction false} GuardsSinceRecord(events: seq<Event>, i: nat)
    requires i <= |events| && forall k :: i <= k < |events| ==> events[k].Guard?
    ensures SinceRecord(events) <= i && Streak(events) == Streak(events[..i])
  {
    if i < |events| {
      GuardsSinceRecord(Front(events), i);
      assert Front(events)[..i] == events[..i];
    } else {
      assert events[..i] == events;
    }
  }

  /** Open: of all guards between two records at most one is let through, and never before the cooldown is over. */
  lemma OneProbeBetweenRecords(threshold: int, cooldown: real, events: seq<Event>, i: nat, j: nat)
    requires threshold > 0 && i < j < |events|
    requires forall k :: i <= k <= j ==> events[k].Guard?
    requires Streak(events[..i]) >= threshold
    ensures !(Admitted(threshold, cooldown, events, i) && Admitted(threshold, cooldown, events, j))
    ensures Admitted(threshold, cooldown, events, j) ==>
              LatestFailure(events[..j]).Some? && events[j].now - LatestFailure(events[..j]).value >= cooldown
  {
    var before := events[..j];
    assert before[..i] == events[..i];
    GuardsSinceRecord(before, i);
    GuardAdmitsIff(threshold, cooldown, events, j);
    if Admitted(threshold, cooldown, events, i) {
      assert Admitted(threshold, cooldown, before, i);
    }
  }

  /**
   A probe whose call leaves without recording blocks every later guard, however late, until someone records:
   safety holds, recovery does not.
   */
  lemma AbandonedProbeBlocks(threshold: int, cooldown: real, events: seq<Event>, i: nat)
    requires threshold > 0 && i < |events| && Streak(events[..i]) >= threshold
    requires Admitted(threshold, cooldown, events, i) && forall k :: i <= k < |events| ==> events[k].Guard?
    ensures forall j :: i < j < |events| ==> !Admitted(threshold, cooldown, events, j)
  {
    forall j | i < j < |events| ensures !Admitted(threshold, cooldown, events, j) {
      OneProbeBetweenRecords(threshold, cooldown, events, i, j);
    }
  }

  /** With a threshold of zero or less nothing is ever counted or refused. */
  lemma {:induction false} DisabledNeverRefuses(threshold: int, cooldown: real, events: seq<Event>)
    requires threshold <= 0
    ensures Run(threshold, cooldown, events) == CLOSED
    ensures forall i :: 0 <= i < |events| && events[i].Guard? ==> Admitted(threshold, cooldown, events, i)
  {
    if events != [] {
      DisabledNeverRefuses(threshold, cooldown, Front(events));
    }
  }
}
