/**
 The lock on one conversation: set-if-absent with an expiry, released by compare-and-delete. Workers
 interleave freely; the server's clock never goes back and every acquire draws its own token.
 */
module SessionLock {
  import opened Sequences

  datatype Entry = Entry(token: string, expiry: int)

  type Keys = map<string, Entry>

  /** One command as the server sees it, with its clock in milliseconds. */
  datatype Event =
    | TrySet(thread: string, token: string, now: int, ttl: int)
    | Release(thread: string, token: string, now: int)

  const LOCK_PREFIX := "cs:session:lock:"

  function LockKey(thread: string): string {
    LOCK_PREFIX + "{" + thread + "}"
  }

  lemma LockKeysDiffer(a: string, b: string)
    ensures LockKey(a) == LockKey(b) ==> a == b
  {
    var n := |LOCK_PREFIX| + 1;
    assert LockKey(a)[n..|LockKey(a)| - 1] == a;
    assert LockKey(b)[n..|LockKey(b)| - 1] == b;
  }

  /** Lifetime of a lock in milliseconds: at least a second. */
  function TtlMillis(seconds: real): int {
    if seconds * 1000.0 < 1000.0 then 1000 else (seconds * 1000.0).Floor
  }

  /** The value a read at `now` finds: an expired key is gone. */
  function Seen(keys: Keys, key: string, now: int): Option<string> {
    if key in keys && now < keys[key].expiry then Some(keys[key].token) else None
  }

  /** The new keys, and whether the command did something. */
  function Step(keys: Keys, event: Event): (Keys, bool) {
    var key := LockKey(event.thread);
    var found := Seen(keys, key, event.now);
    match event
    case TrySet(_, token, now, ttl) =>
      if found.None? then (keys[key := Entry(token, now + ttl)], true) else (keys, false)
    case Release(_, token, _) =>
      if found == Some(token) then (keys - {key}, true) else (keys, false)
  }

  class RedisSessionLock {
    var keys: Keys
    const ttl: int

    constructor (seconds: real)
      ensures keys == map[] && ttl == TtlMillis(seconds) && ttl >= 1000
    {
      keys, ttl := map[], TtlMillis(seconds);
    }

    /** One round of the acquire loop. */
    method TryAcquire(thread: string, token: string, now: int) returns (ok: bool)
      modifies this
      ensures (keys, ok) == Step(old(keys), TrySet(thread, token, now, ttl))
    {
      var key := LockKey(thread);
      ok := Seen(keys, key, now).None?;
      if ok {
        keys := keys[key := Entry(token, now + ttl)];
      }
    }

    method Release(thread: string, token: string, now: int) returns (deleted: bool)
      modifies this
      ensures (keys, deleted) == Step(old(keys), Event.Release(thread, token, now))
    {
      var key := LockKey(thread);
      deleted := Seen(keys, key, now) == Some(token);
      if deleted {
        keys := keys - {key};
      }
    }
  }

  // ----- Runs

  function Run(events: seq<Event>): Keys {
    if events == [] then map[] else Step(Run(Front(events)), Last(events)).0
  }

  /** The event at `i` is an acquire of the thread's lock that succeeded. */
  predicate Granted(events: seq<Event>, thread: string, i: nat) {
    i < |events| && events[i].TrySet? && events[i].thread == thread && Step(Run(events[..i]), events[i]).1
  }

  function Expiry(event: Event): int
    requires event.TrySet?
  {
    event.now + event.ttl
  }

  /** Nobody has released the lease taken at `i` before position `j`. */
  ghost predicate Unreleased(events: seq<Event>, i: nat, j: nat)
    requires i <= j <= |events| && i < |events|
  {
    forall k :: i < k < j && events[k].Release? && events[k].thread == events[i].thread ==>
                  events[k].token != events[i].token
  }

  ghost predicate ClockHolds(events: seq<Event>) {
    forall i, j :: 0 <= i <= j < |events| ==> events[i].now <= events[j].now
  }

  ghost predicate FreshTokens(events: seq<Event>) {
    forall thread, i: nat, j: nat :: i < j && Granted(events, thread, i) && Granted(events, thread, j) ==>
                                       events[i].token != events[j].token
  }

  lemma GrantedInPrefix(events: seq<Event>, thread: string, i: nat, n: nat)
    requires i < n <= |events|
    ensures Granted(events[..n], thread, i) == Granted(events, thread, i)
  {
    assert events[..n][..i] == events[..i];
  }

  /** The lease taken at `i` still runs at `now`, after all the events. */
  ghost predicate Runs(events: seq<Event>, thread: string, i: nat, now: int) {
    Granted(events, thread, i) && now < Expiry(events[i]) && Unreleased(events, i, |events|)
  }

  lemma RunsEarlier(events: seq<Event>, thread: string, i: nat, now: int, n: nat, earlier: int)
    requires i < n <= |events| && earlier <= now && Runs(events, thread, i, now)
    ensures Runs(events[..n], thread, i, earlier)
  {
    GrantedInPrefix(events, thread, i, n);
  }

  lemma OtherThreadUntouched(keys: Keys, event: Event, thread: string, now: int)
    requires event.thread != thread
    ensures Seen(Step(keys, event).0, LockKey(thread), now) == Seen(keys, LockKey(thread), now)
  {
    LockKeysDiffer(event.thread, thread);
  }

  /** A lease that still runs is what the server shows. */
  lemma {:induction false} RunningLeaseIsSeen(events: seq<Event>, thread: string, i: nat, now: int)
    requires ClockHolds(events) && (events == [] || Last(events).now <= now) && Runs(events, thread, i, now)
    ensures Seen(Run(events), LockKey(thread), now) == Some(events[i].token)
  {
    var before, event, n := Front(events), Last(events), |events| - 1;
    assert before == events[..n];
    if i < n {
      RunsEarlier(events, thread, i, now, n, now);
      RunsEarlier(events, thread, i, now, n, event.now);
      RunningLeaseIsSeen(before, thread, i, now);
      RunningLeaseIsSeen(before, thread, i, event.now);
      if event.thread != thread {
        OtherThreadUntouched(Run(before), event, thread, now);
      }
    }
  }

  /** What the server shows is a lease that still runs. */
  lemma {:induction false} SeenIsRunningLease(events: seq<Event>, thread: string, now: int) returns (i: nat)
    requires ClockHolds(events) && (events == [] || Last(events).now <= now)
    requires Seen(Run(events), LockKey(thread), now).Some?
    ensures Runs(events, thread, i, now) && Seen(Run(events), LockKey(thread), now) == Some(events[i].token)
  {
    var before, event, n := Front(events), Last(events), |events| - 1;
    assert before == events[..n];
    if Granted(events, thread, n) {
      i := n;
    } else {
      if event.thread != thread {
        OtherThreadUntouched(Run(before), event, thread, now);
      }
      i := SeenIsRunningLease(before, thread, now);
      GrantedInPrefix(events, thread, i, n);
    }
  }

  /**
   The lock law: an acquire succeeds exactly if every earlier successful acquire of the same lock has expired by
   then or was released in between. So validity intervals never overlap, and no free lock is refused.
   */
  lemma GrantedIffAllLeasesOver(events: seq<Event>, thread: string, j: nat)
    requires ClockHolds(events) && j < |events| && events[j].TrySet? && events[j].thread == thread
    ensures Granted(events, thread, j) <==>
              forall i: nat :: i < j && Granted(events, thread, i) ==>
                Expiry(events[i]) <= events[j].now || !Unreleased(events, i, j)
  {
    var before, now := events[..j], events[j].now;
    forall i: nat | i < j ensures Granted(before, thread, i) == Granted(events, thread, i) {
      GrantedInPrefix(events, thread, i, j);
    }
    if Seen(Run(before), LockKey(thread), now).Some? {
      var i := SeenIsRunningLease(before, thread, now);
      assert Granted(events, thread, i) && Unreleased(events, i, j);
    }
    forall i: nat | i < j && Granted(events, thread, i) && Granted(events, thread, j)
      ensures Expiry(events[i]) <= now || !Unreleased(events, i, j)
    {
      if now < Expiry(events[i]) && Unreleased(events, i, j) {
        RunningLeaseIsSeen(before, thread, i, now);
      }
    }
  }

  /** The lease taken at `i` is over at `j`: its lifetime has passed, or its token has released the lock since. */
  ghost predicate Over(events: seq<Event>, thread: string, i: nat, j: nat)
    requires i < j < |events| && events[i].TrySet?
  {
    || events[i].now + events[i].ttl <= events[j].now
    || exists k: nat :: i < k < j && events[k].Release? && events[k].thread == thread && events[k].token == events[i].token
  }

  lemma OverIff(events: seq<Event>, thread: string, i: nat, j: nat)
    requires i < j < |events| && events[i].TrySet? && events[i].thread == thread
    ensures Over(events, thread, i, j) <==> Expiry(events[i]) <= events[j].now || !Unreleased(events, i, j)
  {}

  /** The lock law with the numbers of the commands: lifetimes end at the time of the acquire plus its `ttl`. */
  lemma GrantedIffLifetimesOver(events: seq<Event>, thread: string, j: nat)
    requires ClockHolds(events) && j < |events| && events[j].TrySet? && events[j].thread == thread
    ensures Granted(events, thread, j) <==>
              forall i: nat :: i < j && Granted(events, thread, i) ==> Over(events, thread, i, j)
  {
    GrantedIffAllLeasesOver(events, thread, j);
    forall i: nat | i < j && Granted(events, thread, i)
      ensures Over(events, thread, i, j) <==> Expiry(events[i]) <= events[j].now || !Unreleased(events, i, j)
    {
      OverIff(events, thread, i, j);
    }
  }

  /** The lifetime in whole milliseconds, cut off and never less than a second. */
  lemma TtlInMillis(seconds: real)
    ensures seconds <= 1.0 ==> TtlMillis(seconds) == 1000
    ensures seconds >= 1.0 ==> TtlMillis(seconds) as real <= seconds * 1000.0 < (TtlMillis(seconds) + 1) as real
  {}

  /** Releasing after the lock has passed to someone else changes nothing: the successor keeps its entry. */
  lemma LateReleaseIsHarmless(events: seq<Event>, thread: string, i: nat, j: nat, k: nat)
    requires ClockHolds(events) && FreshTokens(events) && i < j < k < |events|
    requires Granted(events, thread, i) && Granted(events, thread, j)
    requires events[k].Release? && events[k].thread == thread && events[k].token == events[i].token
    ensures Run(events[..k + 1]) == Run(events[..k])
  {
    var before, now := events[..k], events[k].now;
    assert Front(events[..k + 1]) == before;
    if Seen(Run(before), LockKey(thread), now) == Some(events[i].token) {
      var holder := SeenIsRunningLease(before, thread, now);
      GrantedInPrefix(events, thread, holder, k);
      assert holder == i;
      GrantedIffAllLeasesOver(events, thread, j);
      assert Unreleased(events, i, j);
      assert false;
    }
  }
}
