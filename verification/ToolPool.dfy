/**
 Submitting work to a bounded thread pool. A permit is taken by the submitter and handed to the done-callback
 of the future; many submitters, workers and futures interleave. One call makes at most one future, so a
 future is part of its call.
 */
module ToolPool {
  import opened Sequences

  type CallId = nat
  type ThreadId = nat

  datatype Phase = Arrived | Holding | Handing | Waiting | Left
  datatype Future = NoFuture | Pending | Running(worker: ThreadId) | Finished
  datatype Callback = Unset | Attached | Fired

  /** One execution of the submit function. `direct` calls run in place: no pool, or already on a pool worker. */
  datatype Call = Call(
    thread: ThreadId, direct: bool, phase: Phase, acquired: bool, future: Future, callback: Callback,
    acquires: nat, releases: nat)

  datatype State = State(permits: nat, workers: nat, pooled: bool, calls: map<CallId, Call>)

  datatype Step =
    | Arrive(id: CallId, thread: ThreadId)
    | DirectReturns(id: CallId)
    | AcquirePermit(id: CallId)
    | AcquireTimesOut(id: CallId)
    | FailsHolding(id: CallId)
    | Submits(id: CallId)
    | AttachesCallback(id: CallId)
    | FailsHanding(id: CallId)
    | Starts(id: CallId, worker: ThreadId)
    | Finishes(id: CallId)
    | WaitTimesOut(id: CallId)
    | Returns(id: CallId)

  /** Number of permits: workers times queue factor, at least one. */
  function PoolCapacity(workers: int, queueFactor: int): (capacity: nat)
    ensures capacity >= 1
    ensures workers >= 1 && queueFactor >= 1 ==> capacity == workers * queueFactor
    ensures workers >= 1 && queueFactor < 1 ==> capacity == workers
    ensures workers < 1 && queueFactor >= 1 ==> capacity == queueFactor
    ensures workers < 1 && queueFactor < 1 ==> capacity == 1
  {
    (if workers < 1 then 1 else workers) * (if queueFactor < 1 then 1 else queueFactor)
  }

  function Initial(capacity: nat, workers: nat, pooled: bool): State {
    State(capacity, workers, pooled, map[])
  }

  // ----- Threads

  /** The thread is a pool worker in the middle of some future's function. */
  predicate OnWorker(st: State, thread: ThreadId) {
    exists id :: id in st.calls && st.calls[id].future == Running(thread)
  }

  /** The thread is inside a call that has not returned. */
  predicate InCall(st: State, thread: ThreadId) {
    exists id :: id in st.calls && st.calls[id].thread == thread && !st.calls[id].phase.Left?
  }

  function Busy(st: State): set<CallId> {
    set id | id in st.calls && st.calls[id].future.Running?
  }

  // ----- Steps

  predicate Enabled(st: State, step: Step) {
    match step
    case Arrive(id, thread) =>
      id !in st.calls && (OnWorker(st, thread) || !InCall(st, thread))
    case DirectReturns(id) => id in st.calls && st.calls[id].direct && st.calls[id].phase.Arrived?
    case AcquirePermit(id) => id in st.calls && !st.calls[id].direct && st.calls[id].phase.Arrived? && st.permits > 0
    case AcquireTimesOut(id) => id in st.calls && !st.calls[id].direct && st.calls[id].phase.Arrived?
    case FailsHolding(id) => id in st.calls && st.calls[id].phase.Holding?
    case Submits(id) => id in st.calls && st.calls[id].phase.Holding?
    case AttachesCallback(id) => id in st.calls && st.calls[id].phase.Handing?
    case FailsHanding(id) => id in st.calls && st.calls[id].phase.Handing?
    case Starts(id, worker) =>
      && id in st.calls && st.calls[id].future.Pending?
      && !OnWorker(st, worker) && !InCall(st, worker) && |Busy(st)| < st.workers
    case Finishes(id) =>
      id in st.calls && st.calls[id].future.Running? && !InCall(st, st.calls[id].future.worker)
    case WaitTimesOut(id) => id in st.calls && st.calls[id].phase.Waiting?
    case Returns(id) => id in st.calls && st.calls[id].phase.Waiting? && st.calls[id].future.Finished?
  }

  function Release(c: Call): Call {
    c.(acquired := false, releases := c.releases + 1)
  }

  /** The future is done: a callback attached to it fires, once. */
  function Done(c: Call): Call {
    if c.callback.Attached? then c.(future := Finished, callback := Fired, releases := c.releases + 1)
    else c.(future := Finished)
  }

  /** The call after a step of its own. */
  function Advance(c: Call, step: Step): Call {
    match step
    case Arrive(_, _) => c
    case DirectReturns(_) => c.(phase := Left)
    case AcquirePermit(_) => c.(phase := Holding, acquired := true, acquires := c.acquires + 1)
    case AcquireTimesOut(_) => c.(phase := Left)
    case FailsHolding(_) => Release(c).(phase := Left)
    case Submits(_) => c.(phase := Handing, future := Pending)
    case AttachesCallback(_) =>
      if c.future.Finished? then Release(c).(phase := Waiting, callback := Fired)
      else c.(phase := Waiting, acquired := false, callback := Attached)
    case FailsHanding(_) => Release(c).(phase := Left)
    case Starts(_, worker) => c.(future := Running(worker))
    case Finishes(_) => Done(c)
    case WaitTimesOut(_) => (if c.future.Pending? then Done(c) else c).(phase := Left)
    case Returns(_) => c.(phase := Left)
  }

  function NewCall(st: State, thread: ThreadId): Call {
    Call(thread, !st.pooled || OnWorker(st, thread), Arrived, false, NoFuture, Unset, 0, 0)
  }

  function Next(st: State, step: Step): State
    requires Enabled(st, step)
  {
    if step.Arrive? then st.(calls := st.calls[step.id := NewCall(st, step.thread)])
    else
      var c := st.calls[step.id];
      var c' := Advance(c, step);
      st.(calls := st.calls[step.id := c'],
          permits := if c'.acquires > c.acquires then (if st.permits > 0 then st.permits - 1 else 0)
                     else st.permits + (if c'.releases > c.releases then 1 else 0))
  }

  // ----- Who owes a permit

  /** The call has taken a permit that nobody has given back: the submitter holds it, or the callback will release it. */
  predicate Owes(c: Call) {
    c.acquired || c.callback.Attached?
  }

  function Owing(st: State): set<CallId> {
    set id | id in st.calls && Owes(st.calls[id])
  }

  /** How the phase, the flag, the future and the callback of one call hang together. */
  predicate WellPhased(c: Call) {
    && (c.acquired <==> c.phase.Holding? || c.phase.Handing?)
    && (c.phase.Arrived? || c.phase.Holding? ==> c.future.NoFuture? && c.callback.Unset?)
    && (c.phase.Handing? ==> !c.future.NoFuture? && c.callback.Unset?)
    && (c.phase.Waiting? ==> !c.future.NoFuture? && (c.callback.Attached? <==> !c.future.Finished?) && !c.callback.Unset?)
    && (c.callback.Attached? ==> !c.acquired && (c.future.Pending? || c.future.Running?))
    && (c.future.NoFuture? ==> c.callback.Unset?)
    && (c.direct ==> c.future.NoFuture? && (c.phase.Arrived? || c.phase.Left?))
  }

  /** Each call's own books: at most one permit taken, and given back exactly once unless still owed. */
  predicate Balanced(c: Call) {
    && c.acquires <= 1
    && c.acquires == c.releases + (if Owes(c) then 1 else 0)
    && (c.direct || c.phase.Arrived? ==> c.acquires == 0)
  }

  ghost predicate Inv(st: State, capacity: nat) {
    && (forall id :: id in st.calls ==> WellPhased(st.calls[id]) && Balanced(st.calls[id]))
    && st.permits + |Owing(st)| == capacity
  }

  lemma StepKeepsCall(c: Call, step: Step)
    requires WellPhased(c) && Balanced(c)
    requires match step
             case Arrive(_, _) => true
             case DirectReturns(_) => c.direct && c.phase.Arrived?
             case AcquirePermit(_) => !c.direct && c.phase.Arrived?
             case AcquireTimesOut(_) => !c.direct && c.phase.Arrived?
             case FailsHolding(_) => c.phase.Holding?
             case Submits(_) => c.phase.Holding?
             case AttachesCallback(_) => c.phase.Handing?
             case FailsHanding(_) => c.phase.Handing?
             case Starts(_, _) => c.future.Pending?
             case Finishes(_) => c.future.Running?
             case WaitTimesOut(_) => c.phase.Waiting?
             case Returns(_) => c.phase.Waiting? && c.future.Finished?
    ensures var c' := Advance(c, step);
            && WellPhased(c') && Balanced(c')
            && c'.acquires - c.acquires == (if step.AcquirePermit? then 1 else 0)
            && 0 <= c'.releases - c.releases <= 1
            && (if Owes(c') then 1 else 0) - (if Owes(c) then 1 else 0) ==
               (c'.acquires - c.acquires) - (c'.releases - c.releases)
  {}

  lemma OwingUpdate(st: State, id: CallId, c: Call, st': State)
    requires st'.calls == st.calls[id := c]
    ensures |Owing(st')| == |Owing(st)| - (if id in st.calls && Owes(st.calls[id]) then 1 else 0) + (if Owes(c) then 1 else 0)
  {
    var rest := Owing(st) - {id};
    assert Owing(st) == if id in st.calls && Owes(st.calls[id]) then rest + {id} else rest;
    assert Owing(st') == if Owes(c) then rest + {id} else rest;
  }

  /** Available permits plus permits owed is the capacity, before and after every step of every interleaving. */
  lemma StepConservesPermits(st: State, step: Step, capacity: nat)
    requires Inv(st, capacity) && Enabled(st, step)
    ensures Inv(Next(st, step), capacity)
  {
    var st' := Next(st, step);
    OwingUpdate(st, step.id, st'.calls[step.id], st');
    if !step.Arrive? {
      StepKeepsCall(st.calls[step.id], step);
    }
  }

  /** The state after a run, if every step of it was enabled. */
  function After(st: State, steps: seq<Step>): Option<State> {
    if steps == [] then Some(st)
    else
      var before := After(st, Front(steps));
      if before.Some? && Enabled(before.value, Last(steps)) then Some(Next(before.value, Last(steps))) else None
  }

  /** Over every run: permits + submitters holding one + admitted futures not done = capacity. */
  lemma {:induction false} PermitsAreConserved(capacity: nat, workers: nat, pooled: bool, steps: seq<Step>)
    requires After(Initial(capacity, workers, pooled), steps).Some?
    ensures Inv(After(Initial(capacity, workers, pooled), steps).value, capacity)
  {
    var st := Initial(capacity, workers, pooled);
    if steps == [] {
      assert Owing(st) == {};
    } else {
      PermitsAreConserved(capacity, workers, pooled, Front(steps));
      StepConservesPermits(After(st, Front(steps)).value, Last(steps), capacity);
    }
  }

  /** Nobody inside a call and no future unfinished: every permit is back, and each taken one came back once. */
  lemma QuietPoolIsFull(capacity: nat, workers: nat, pooled: bool, steps: seq<Step>)
    requires After(Initial(capacity, workers, pooled), steps).Some?
    requires var st := After(Initial(capacity, workers, pooled), steps).value;
             forall id :: id in st.calls ==>
               st.calls[id].phase.Left? && (st.calls[id].future.NoFuture? || st.calls[id].future.Finished?)
    ensures var st := After(Initial(capacity, workers, pooled), steps).value;
            && st.permits == capacity
            && (forall id :: id in st.calls ==> st.calls[id].releases == st.calls[id].acquires)
  {
    PermitsAreConserved(capacity, workers, pooled, steps);
    assert Owing(After(Initial(capacity, workers, pooled), steps).value) == {};
  }

  /** What the gauge shows as occupied: capacity less available permits, never below zero. */
  function Occupied(capacity: int, available: int): int {
    if capacity <= 0 || capacity - available < 0 then 0 else capacity - available
  }

  /** The gauge counts exactly the calls that owe a permit: submitters holding one and futures not done. */
  lemma GaugeCountsOwing(capacity: nat, workers: nat, pooled: bool, steps: seq<Step>)
    requires After(Initial(capacity, workers, pooled), steps).Some?
    ensures var st := After(Initial(capacity, workers, pooled), steps).value;
            Occupied(capacity, st.permits) == |Owing(st)|
  {
    PermitsAreConserved(capacity, workers, pooled, steps);
  }

  // ----- One submission, in the order of the source

  /** How one call goes. Only a wait that times out on a running future leaves the permit with the callback. */
  datatype Fate =
    | Busy | FailsBeforeSubmit | FailsAttaching | FinishesBeforeCallback | Completes | TimesOutQueued | TimesOutRunning

  /** The call after its own steps, others' steps left out. */
  function Course(id: CallId, thread: ThreadId, worker: ThreadId, direct: bool, fate: Fate): Call {
    var c := Call(thread, direct, Arrived, false, NoFuture, Unset, 0, 0);
    var held := Advance(c, AcquirePermit(id));
    var queued := Advance(held, Submits(id));
    var waiting := Advance(queued, AttachesCallback(id));
    var running := Advance(waiting, Starts(id, worker));
    if direct then Advance(c, DirectReturns(id))
    else match fate
      case Busy => Advance(c, AcquireTimesOut(id))
      case FailsBeforeSubmit => Advance(held, FailsHolding(id))
      case FailsAttaching => Advance(queued, FailsHanding(id))
      case FinishesBeforeCallback =>
        Advance(Advance(Advance(Advance(queued, Starts(id, worker)), Finishes(id)), AttachesCallback(id)), Returns(id))
      case Completes => Advance(Advance(running, Finishes(id)), Returns(id))
      case TimesOutQueued => Advance(waiting, WaitTimesOut(id))
      case TimesOutRunning => Advance(running, WaitTimesOut(id))
  }

  class OrderPool {
    var permits: nat

    constructor (workers: int, queueFactor: int)
      ensures permits == PoolCapacity(workers, queueFactor)
    {
      permits := PoolCapacity(workers, queueFactor);
    }

    /** A call that nobody interrupts; `handed` says that its permit is still with the callback of the future. */
    method Submit(direct: bool, fate: Fate) returns (handed: bool)
      requires !direct && !fate.Busy? ==> permits > 0
      modifies this
      ensures handed <==> !direct && fate.TimesOutRunning?
      ensures permits == if handed then old(permits) - 1 else old(permits)
      ensures forall id, thread, worker ::
                var c := Course(id, thread, worker, direct, fate);
                permits + c.acquires == old(permits) + c.releases && handed == c.callback.Attached?
    {
      handed := false;
      if direct {
        return;
      }
      var acquired := !fate.Busy?;
      if !acquired {
        return;
      }
      permits := permits - 1;
      if !fate.FailsBeforeSubmit? && !fate.FailsAttaching? {
        if fate.FinishesBeforeCallback? {
          permits := permits + 1;
        } else {
          handed := true;
        }
        acquired := false;
        if fate.Completes? || fate.TimesOutQueued? {
          handed := FutureDone(handed);
        }
      }
      if acquired {
        permits := permits + 1;
      }
    }

    /** The future completes, fails or is cancelled: an attached callback releases the permit, once. */
    method FutureDone(handed: bool) returns (still: bool)
      modifies this
      ensures !still && permits == old(permits) + (if handed then 1 else 0)
    {
      if handed {
        permits := permits + 1;
      }
      still := false;
    }
  }

  // ----- Re-entrant calls and progress

  /** A call that may wait for a permit is never made on a pool worker that is running a future. */
  ghost predicate NoWorkerWaits(st: State) {
    forall id :: id in st.calls && !st.calls[id].direct && !st.calls[id].phase.Left? ==> !OnWorker(st, st.calls[id].thread)
  }

  lemma StepKeepsWorkersFree(st: State, step: Step)
    requires NoWorkerWaits(st) && Enabled(st, step)
    ensures NoWorkerWaits(Next(st, step))
  {
    var st' := Next(st, step);
    forall id, other | id in st'.calls && !st'.calls[id].direct && !st'.calls[id].phase.Left? && other in st'.calls
      ensures st'.calls[other].future != Running(st'.calls[id].thread)
    {
      var thread := st'.calls[id].thread;
      if step.Starts? && other == step.id {
        assert st'.calls[id].phase == st.calls[id].phase && st.calls[id].thread == thread;
        assert !InCall(st, step.worker);
      } else if other in st.calls && st'.calls[other].future == Running(thread) {
        assert OnWorker(st, thread);
      }
    }
  }

  lemma {:induction false} WorkersNeverWait(capacity: nat, workers: nat, pooled: bool, steps: seq<Step>)
    requires After(Initial(capacity, workers, pooled), steps).Some?
    ensures NoWorkerWaits(After(Initial(capacity, workers, pooled), steps).value)
  {
    if steps != [] {
      WorkersNeverWait(capacity, workers, pooled, Front(steps));
      StepKeepsWorkersFree(After(Initial(capacity, workers, pooled), Front(steps)).value, Last(steps));
    }
  }

  /** Steps that need no permit and no new call. */
  predicate NeedsNoPermit(step: Step) {
    step.DirectReturns? || step.Submits? || step.AttachesCallback? || step.Starts? || step.Finishes?
  }

  lemma FreshThread(st: State) returns (thread: ThreadId)
    ensures !OnWorker(st, thread) && !InCall(st, thread)
  {
    var used := (set id | id in st.calls :: st.calls[id].thread) +
                (set id | id in st.calls && st.calls[id].future.Running? :: st.calls[id].future.worker);
    thread := Unused(used);
    forall id | id in st.calls ensures st.calls[id].thread != thread && st.calls[id].future != Running(thread) {
      assert st.calls[id].thread in used;
      if st.calls[id].future.Running? {
        assert st.calls[id].future.worker in used;
      }
    }
  }

  lemma {:induction false} Unused(used: set<nat>) returns (n: nat)
    ensures n !in used && forall m :: m in used ==> m < n
  {
    if used == {} {
      n := 0;
    } else {
      var m :| m in used;
      var k := Unused(used - {m});
      n := if k <= m then m + 1 else k;
      assert forall x :: x in used ==> x == m || x in used - {m};
    }
  }

  /**
   A pool whose permits are all taken is never stuck: some step that needs no permit is possible. Nested
   calls on workers run in place, so a worker cannot wait for a permit that only it could give back.
   */
  lemma ExhaustedPoolCanMove(st: State, capacity: nat) returns (step: Step)
    requires Inv(st, capacity) && NoWorkerWaits(st) && st.permits == 0 && capacity > 0 && st.workers > 0
    ensures Enabled(st, step) && NeedsNoPermit(step)
  {
    var id :| id in Owing(st);
    var c := st.calls[id];
    if c.phase.Holding? {
      step := Submits(id);
    } else if c.phase.Handing? {
      step := AttachesCallback(id);
    } else if |Busy(st)| < st.workers && c.future.Pending? {
      var worker := FreshThread(st);
      step := Starts(id, worker);
    } else if c.future.Running? {
      step := SomeWorkerMoves(st, id);
    } else {
      var busy :| busy in Busy(st);
      step := SomeWorkerMoves(st, busy);
    }
  }

  lemma SomeWorkerMoves(st: State, id: CallId) returns (step: Step)
    requires NoWorkerWaits(st) && id in st.calls && st.calls[id].future.Running?
    requires forall i :: i in st.calls ==> WellPhased(st.calls[i])
    ensures Enabled(st, step) && NeedsNoPermit(step)
  {
    var worker := st.calls[id].future.worker;
    if InCall(st, worker) {
      var nested :| nested in st.calls && st.calls[nested].thread == worker && !st.calls[nested].phase.Left?;
      assert OnWorker(st, worker);
      step := DirectReturns(nested);
    } else {
      step := Finishes(id);
    }
  }

  // ----- An exhausted pool gives a permit back

  /** Steps the call can still take without a permit, at most. */
  function Remaining(c: Call): nat {
    (match c.phase case Arrived => 1 case Holding => 4 case Handing => 1 case Waiting => 0 case Left => 0) +
    (match c.future case NoFuture => 0 case Pending => 2 case Running(_) => 1 case Finished => 0)
  }

  /** One element for each such step of each call. */
  function Work(st: State): set<(CallId, nat)> {
    set id, n | id in st.calls && 0 <= n < Remaining(st.calls[id]) :: (id, n)
  }

  lemma PermitFreeStepUsesWork(st: State, step: Step)
    requires Enabled(st, step) && NeedsNoPermit(step)
    requires forall id :: id in st.calls ==> WellPhased(st.calls[id])
    ensures Next(st, step).permits >= st.permits
    ensures |Work(Next(st, step))| < |Work(st)|
  {
    var st', id := Next(st, step), step.id;
    var left := Remaining(st'.calls[id]);
    assert left < Remaining(st.calls[id]);
    assert Work(st') <= Work(st) - {(id, left)};
    SmallerSet(Work(st'), Work(st), (id, left));
  }

  lemma SmallerSet(a: set<(CallId, nat)>, b: set<(CallId, nat)>, x: (CallId, nat))
    requires a <= b - {x} && x in b
    ensures |a| < |b|
  {
    assert |b - {x}| == |b| - 1;
    SubsetSize(a, b - {x});
  }

  lemma {:induction false} SubsetSize(a: set<(CallId, nat)>, b: set<(CallId, nat)>)
    requires a <= b
    ensures |a| <= |b|
  {
    if a != {} {
      var x :| x in a;
      SubsetSize(a - {x}, b - {x});
    }
  }

  ghost predicate AllPermitFree(steps: seq<Step>) {
    forall i :: 0 <= i < |steps| ==> NeedsNoPermit(steps[i])
  }

  lemma Regroup(past: seq<Step>, step: Step, rest: seq<Step>)
    ensures past + [step] + rest == past + ([step] + rest)
    ensures NeedsNoPermit(step) && AllPermitFree(rest) ==> AllPermitFree([step] + rest)
  {}

  /** One step towards the next free permit. */
  lemma RecoveryStep(start: State, past: seq<Step>, st: State, capacity: nat) returns (step: Step, st': State)
    requires After(start, past) == Some(st)
    requires Inv(st, capacity) && NoWorkerWaits(st) && capacity > 0 && st.workers > 0 && st.permits == 0
    ensures NeedsNoPermit(step) && After(start, past + [step]) == Some(st')
    ensures Inv(st', capacity) && NoWorkerWaits(st') && st'.workers == st.workers
    ensures |Work(st')| < |Work(st)|
  {
    step := ExhaustedPoolCanMove(st, capacity);
    st' := Next(st, step);
    PermitFreeStepUsesWork(st, step);
    StepConservesPermits(st, step, capacity);
    StepKeepsWorkersFree(st, step);
    assert Front(past + [step]) == past;
  }

  /**
   The pool cannot deadlock on itself: from any reachable state with all permits taken, finitely many further steps
   that take no permit and admit no new call bring one back.
   */
  lemma {:induction false} ExhaustedPoolRecovers(start: State, past: seq<Step>, st: State, capacity: nat) returns (steps: seq<Step>)
    requires After(start, past) == Some(st)
    requires Inv(st, capacity) && NoWorkerWaits(st) && capacity > 0 && st.workers > 0
    ensures AllPermitFree(steps)
    ensures After(start, past + steps).Some? && After(start, past + steps).value.permits > 0
    decreases |Work(st)|
  {
    steps := [];
    if st.permits > 0 {
      assert past + [] == past;
    } else {
      var step, st' := RecoveryStep(start, past, st, capacity);
      var rest := ExhaustedPoolRecovers(start, past + [step], st', capacity);
      steps := [step] + rest;
      Regroup(past, step, rest);
    }
  }

  /** The same from the initial state of the pool, after any run at all. */
  lemma EveryRunRecovers(capacity: nat, workers: nat, pooled: bool, past: seq<Step>) returns (steps: seq<Step>)
    requires capacity > 0 && workers > 0 && After(Initial(capacity, workers, pooled), past).Some?
    ensures AllPermitFree(steps)
    ensures var end := After(Initial(capacity, workers, pooled), past + steps);
            end.Some? && end.value.permits > 0
  {
    var start := Initial(capacity, workers, pooled);
    PermitsAreConserved(capacity, workers, pooled, past);
    WorkersNeverWait(capacity, workers, pooled, past);
    WorkersStay(start, past);
    steps := ExhaustedPoolRecovers(start, past, After(start, past).value, capacity);
  }

  lemma {:induction false} WorkersStay(st: State, steps: seq<Step>)
    requires After(st, steps).Some?
    ensures After(st, steps).value.workers == st.workers
  {
    if steps != [] { WorkersStay(st, Front(steps)); }
  }

  // ----- Whatever the schedule

  /**
   Every run of steps that take no permit and admit no call is finite: it uses up work, and it never loses a permit.
   */
  lemma {:induction false} PermitFreeRunIsShort(start: State, past: seq<Step>, st: State, steps: seq<Step>, capacity: nat)
    requires After(start, past) == Some(st) && Inv(st, capacity) && NoWorkerWaits(st)
    requires AllPermitFree(steps) && After(start, past + steps).Some?
    ensures var end := After(start, past + steps).value;
            && |steps| + |Work(end)| <= |Work(st)|
            && end.permits >= st.permits && end.workers == st.workers
            && Inv(end, capacity) && NoWorkerWaits(end)
  {
    if steps == [] {
      assert past + [] == past;
    } else {
      var last := Last(steps);
      assert Front(past + steps) == past + Front(steps) && Last(past + steps) == last;
      assert NeedsNoPermit(steps[|steps| - 1]) && AllPermitFree(Front(steps));
      PermitFreeRunIsShort(start, past, st, Front(steps), capacity);
      var before := After(start, past + Front(steps)).value;
      PermitFreeStepUsesWork(before, last);
      StepConservesPermits(before, last, capacity);
      StepKeepsWorkersFree(before, last);
    }
  }

  /**
   After any run, whatever schedule the pool then follows without admitting calls or taking permits: it has at most
   as many steps as there is work, and when no such step is left a permit is free.
   */
  lemma EveryScheduleRecovers(capacity: nat, workers: nat, pooled: bool, past: seq<Step>, steps: seq<Step>)
    requires capacity > 0 && workers > 0
    requires AllPermitFree(steps) && After(Initial(capacity, workers, pooled), past).Some?
    requires After(Initial(capacity, workers, pooled), past + steps).Some?
    ensures var start := Initial(capacity, workers, pooled);
            var end := After(start, past + steps).value;
            && |steps| <= |Work(After(start, past).value)|
            && ((forall step :: NeedsNoPermit(step) ==> !Enabled(end, step)) ==> end.permits > 0)
  {
    var start := Initial(capacity, workers, pooled);
    var st := After(start, past).value;
    PermitsAreConserved(capacity, workers, pooled, past);
    WorkersNeverWait(capacity, workers, pooled, past);
    WorkersStay(start, past);
    PermitFreeRunIsShort(start, past, st, steps, capacity);
    var end := After(start, past + steps).value;
    if end.permits == 0 {
      var step := ExhaustedPoolCanMove(end, capacity);
    }
  }
}
