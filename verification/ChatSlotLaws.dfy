/** What the chat-slot stores answer, from nothing but the operations so far and the answers they got. */
module ChatSlotLaws {
  import opened Sequences
  import opened ChatSlots

  // ----- Which leases run, read off the history

  /**
   The acquire at `i` was granted, nobody has released its token since, and `now` is less than the requested
   lifetime, at least one second, after it.
   */
  ghost predicate Running(ops: seq<Op>, answers: seq<Response>, i: nat, now: real)
    requires |answers| == |ops|
  {
    && i < |ops| && ops[i].Acquire? && answers[i].Granted?
    && now < ops[i].now + (if ops[i].ttl < 1 then 1.0 else ops[i].ttl as real)
    && forall j :: i < j < |ops| && ops[j].Release? ==> ops[j].token != ops[i].token
  }

  ghost function RunningTokens(ops: seq<Op>, answers: seq<Response>, now: real): set<Token>
    requires |answers| == |ops|
  {
    set i: nat | i < |ops| && Running(ops, answers, i, now) :: ops[i].token
  }

  ghost function TenantTokens(ops: seq<Op>, answers: seq<Response>, tenant: string, now: real): set<Token>
    requires |answers| == |ops|
  {
    set i: nat | i < |ops| && Running(ops, answers, i, now) && ops[i].tenant == tenant :: ops[i].token
  }

  /** The answer a caller can expect: the global cap is looked at first, then the tenant's. */
  ghost predicate Expected(ops: seq<Op>, answers: seq<Response>, op: Op, answer: Response)
    requires |answers| == |ops|
  {
    match op
    case Acquire(tenant, globalLimit, tenantLimit, _, now, token) =>
      answer == (if |RunningTokens(ops, answers, now)| >= globalLimit then ClusterBusy
                 else if |TenantTokens(ops, answers, tenant, now)| >= tenantLimit then TenantBusy
                 else Granted(token))
    case Release(_, _) => answer == Released
    case Count(now) => answer == InFlight(|RunningTokens(ops, answers, now)|)
  }

  // ----- One operation more

  lemma RunningBefore(ops: seq<Op>, answers: seq<Response>, op: Op, answer: Response, i: nat, now: real)
    requires |answers| == |ops| && i < |ops|
    ensures Running(ops + [op], answers + [answer], i, now) <==>
            Running(ops, answers, i, now) && !(op.Release? && op.token == ops[i].token)
  {
    var all := ops + [op];
    assert all[i] == ops[i] && (answers + [answer])[i] == answers[i];
    assert forall j :: i < j < |ops| ==> all[j] == ops[j];
    if Running(all, answers + [answer], i, now) {
      assert all[|ops|] == op;
    }
  }

  ghost predicate GrantsUntil(op: Op, answer: Response, now: real) {
    op.Acquire? && answer.Granted? && now < op.now + (if op.ttl < 1 then 1.0 else op.ttl as real)
  }

  lemma RunningNow(ops: seq<Op>, answers: seq<Response>, op: Op, answer: Response, now: real)
    requires |answers| == |ops|
    ensures Running(ops + [op], answers + [answer], |ops|, now) <==> GrantsUntil(op, answer, now)
  {}

  /** What one operation does to the running tokens. */
  ghost function Moved(tokens: set<Token>, op: Op, answer: Response, now: real): set<Token> {
    (if op.Release? then tokens - {op.token} else tokens) + if GrantsUntil(op, answer, now) then {op.token} else {}
  }

  lemma RunningMoves(ops: seq<Op>, answers: seq<Response>, op: Op, answer: Response, now: real)
    requires |answers| == |ops|
    ensures RunningTokens(ops + [op], answers + [answer], now) == Moved(RunningTokens(ops, answers, now), op, answer, now)
  {
    var all, said := ops + [op], answers + [answer];
    RunningNow(ops, answers, op, answer, now);
    forall i: nat | i < |ops|
      ensures Running(all, said, i, now) <==> Running(ops, answers, i, now) && !(op.Release? && op.token == ops[i].token)
    {
      RunningBefore(ops, answers, op, answer, i, now);
    }
    forall t | t in RunningTokens(all, said, now) ensures t in Moved(RunningTokens(ops, answers, now), op, answer, now) {
      var i: nat :| i < |all| && Running(all, said, i, now) && all[i].token == t;
      if i < |ops| {
        assert ops[i].token == t;
      }
    }
    forall t | t in Moved(RunningTokens(ops, answers, now), op, answer, now) ensures t in RunningTokens(all, said, now) {
      if GrantsUntil(op, answer, now) && t == op.token {
        assert all[|ops|].token == t;
      } else {
        var i: nat :| i < |ops| && Running(ops, answers, i, now) && ops[i].token == t;
        assert all[i].token == t;
      }
    }
  }

  ghost function LiveTokens(leases: Leases, now: real): set<Token> {
    set t | t in leases && leases[t] > now
  }

  lemma PurgeKeepsLive(st: MemoryState, early: real, now: real)
    requires early <= now
    ensures LiveTokens(Purged(st, early).leases, now) == LiveTokens(st.leases, now)
  {}

  lemma AdmissionMoves(clean: MemoryState, op: Op, now: real)
    requires op.Acquire? && op.token !in clean.leases
    ensures var (st, answer) := Admitted(clean, op.tenant, op.globalLimit, op.tenantLimit, ExpireAt(op.now, op.ttl), op.token);
            LiveTokens(st.leases, now) == Moved(LiveTokens(clean.leases, now), op, answer, now)
  {
    NewLease(clean.leases, op, now);
  }

  lemma AcquireMoves(st: MemoryState, op: Op, now: real)
    requires op.Acquire? && op.now <= now && op.token !in st.leases
    ensures LiveTokens(MemoryStep(st, op).0.leases, now) ==
            Moved(LiveTokens(st.leases, now), op, MemoryStep(st, op).1, now)
  {
    PurgeKeepsLive(st, op.now, now);
    AdmissionMoves(Purged(st, op.now), op, now);
  }

  lemma ReleaseMoves(st: MemoryState, op: Op, now: real)
    requires op.Release?
    ensures LiveTokens(MemoryStep(st, op).0.leases, now) ==
            Moved(LiveTokens(st.leases, now), op, MemoryStep(st, op).1, now)
  {
    assert LiveTokens(st.leases - {op.token}, now) == LiveTokens(st.leases, now) - {op.token};
  }

  /** The same, in the global table of the in-process store. */
  lemma LeasesMove(st: MemoryState, op: Op, now: real)
    requires !op.Release? ==> op.now <= now
    requires op.Acquire? ==> op.token !in st.leases
    ensures LiveTokens(MemoryStep(st, op).0.leases, now) ==
            Moved(LiveTokens(st.leases, now), op, MemoryStep(st, op).1, now)
  {
    if op.Acquire? {
      AcquireMoves(st, op, now);
    } else if op.Release? {
      ReleaseMoves(st, op, now);
    } else {
      PurgeKeepsLive(st, op.now, now);
    }
  }

  lemma NewLease(leases: Leases, op: Op, now: real)
    requires op.Acquire? && op.token !in leases
    ensures LiveTokens(leases[op.token := ExpireAt(op.now, op.ttl)], now) ==
            Moved(LiveTokens(leases, now), op, Granted(op.token), now)
  {}

  lemma {:induction false} AnswerCount(ops: seq<Op>)
    ensures |MemoryResponses(ops)| == |ops|
  {
    if ops != [] {
      AnswerCount(Front(ops));
    }
  }

  /** From any time on that no clock reading has passed, the live leases are the running ones. */
  lemma {:induction false} LeasesAreRunning(ops: seq<Op>, now: real)
    requires AdmissibleRun(ops) && NotBefore(now, ops)
    ensures |MemoryResponses(ops)| == |ops|
    ensures LiveTokens(MemoryRun(ops).leases, now) == RunningTokens(ops, MemoryResponses(ops), now)
  {
    AnswerCount(ops);
    if ops != [] {
      assert forall i :: 0 <= i < |ops| - 1 ==> Front(ops)[i] == ops[i];
      LeasesAreRunning(Front(ops), now);
      RunMoves(ops, now);
    }
  }

  lemma RunMoves(ops: seq<Op>, now: real)
    requires ops != [] && AdmissibleRun(ops) && NotBefore(now, ops)
    ensures |MemoryResponses(ops)| == |ops| && |MemoryResponses(Front(ops))| == |ops| - 1
    ensures LiveTokens(MemoryRun(ops).leases, now) ==
            Moved(LiveTokens(MemoryRun(Front(ops)).leases, now), Last(ops), Last(MemoryResponses(ops)), now)
    ensures RunningTokens(ops, MemoryResponses(ops), now) ==
            Moved(RunningTokens(Front(ops), MemoryResponses(Front(ops)), now), Last(ops), Last(MemoryResponses(ops)), now)
  {
    AnswerCount(ops);
    AnswerCount(Front(ops));
    FreshToken(Front(ops), Last(ops));
    LeasesMove(MemoryRun(Front(ops)), Last(ops), now);
    RunningMoves(Front(ops), MemoryResponses(Front(ops)), Last(ops), Last(MemoryResponses(ops)), now);
    assert ops == Front(ops) + [Last(ops)];
  }

  lemma FreshToken(ops: seq<Op>, op: Op)
    requires AdmissibleRun(ops) && Admissible(ops, op)
    ensures op.Acquire? ==> op.token !in MemoryRun(ops).leases
  {
    TablesStayConsistent(ops);
  }

  // ----- Tenants

  lemma {:induction false} OwnerIsTenant(ops: seq<Op>, i: nat)
    requires AdmissibleRun(ops) && i < |ops| && ops[i].Acquire?
    ensures Owner(ops, ops[i].token) == Some(ops[i].tenant)
  {
    if i < |ops| - 1 {
      assert Front(ops)[i] == ops[i];
      OwnerIsTenant(Front(ops), i);
    }
  }

  lemma TenantsOfRunning(ops: seq<Op>, tenant: string, now: real)
    requires AdmissibleRun(ops) && NotBefore(now, ops)
    ensures |MemoryResponses(ops)| == |ops|
    ensures TenantTokens(ops, MemoryResponses(ops), tenant, now) == LiveTokens(Held(MemoryRun(ops), tenant), now)
  {
    var st, answers := MemoryRun(ops), MemoryResponses(ops);
    LeasesAreRunning(ops, now);
    TablesStayConsistent(ops);
    forall i: nat | i < |ops| && Running(ops, answers, i, now)
      ensures Owner(ops, ops[i].token) == Some(ops[i].tenant)
    {
      OwnerIsTenant(ops, i);
    }
    HeldAreOwned(st, ops, tenant, now);
    OwnedAreRunning(ops, answers, tenant, now);
  }

  /** The tokens among the running ones that the tenant acquired. */
  ghost function Owned(tokens: set<Token>, ops: seq<Op>, tenant: string): set<Token> {
    set t | t in tokens && Owner(ops, t) == Some(tenant)
  }

  lemma HeldAreOwned(st: MemoryState, ops: seq<Op>, tenant: string, now: real)
    requires Consistent(st, ops)
    ensures LiveTokens(Held(st, tenant), now) == Owned(LiveTokens(st.leases, now), ops, tenant)
  {
    assert forall t :: t in Held(st, tenant) <==> t in st.leases && Owner(ops, t) == Some(tenant);
    assert forall t :: t in Held(st, tenant) ==> Held(st, tenant)[t] == st.leases[t];
  }

  lemma OwnedAreRunning(ops: seq<Op>, answers: seq<Response>, tenant: string, now: real)
    requires |answers| == |ops|
    requires forall i: nat :: i < |ops| && Running(ops, answers, i, now) ==> Owner(ops, ops[i].token) == Some(ops[i].tenant)
    ensures TenantTokens(ops, answers, tenant, now) == Owned(RunningTokens(ops, answers, now), ops, tenant)
  {
    forall t | t in Owned(RunningTokens(ops, answers, now), ops, tenant) ensures t in TenantTokens(ops, answers, tenant, now) {
      var i: nat :| i < |ops| && Running(ops, answers, i, now) && ops[i].token == t;
      assert ops[i].tenant == tenant;
    }
  }

  // ----- The answers

  lemma PurgedTokens(st: MemoryState, ops: seq<Op>, tenant: string, now: real)
    requires Consistent(st, ops)
    ensures |Purged(st, now).leases| == |LiveTokens(st.leases, now)|
    ensures |Held(Purged(st, now), tenant)| == |LiveTokens(Held(st, tenant), now)|
  {
    PurgedIsLive(st, ops, now);
    assert Purged(st, now).leases.Keys == LiveTokens(st.leases, now);
    assert Held(Purged(st, now), tenant) == Live(Held(st, tenant), now);
    assert Live(Held(st, tenant), now).Keys == LiveTokens(Held(st, tenant), now);
  }

  /** The next operation gets the answer its history calls for. */
  lemma NextAnswerIsExpected(ops: seq<Op>, op: Op)
    requires AdmissibleRun(ops) && Admissible(ops, op)
    ensures |MemoryResponses(ops)| == |ops|
    ensures Expected(ops, MemoryResponses(ops), op, MemoryStep(MemoryRun(ops), op).1)
  {
    AnswerCount(ops);
    if !op.Release? {
      var tenant := if op.Acquire? then op.tenant else "";
      TablesStayConsistent(ops);
      LeasesAreRunning(ops, op.now);
      TenantsOfRunning(ops, tenant, op.now);
      PurgedTokens(MemoryRun(ops), ops, tenant, op.now);
    }
  }

  lemma FrontOfAnswers(ops: seq<Op>)
    requires ops != []
    ensures |MemoryResponses(ops)| == |ops| && Front(MemoryResponses(ops)) == MemoryResponses(Front(ops))
  {
    AnswerCount(ops);
  }

  lemma {:induction false} PrefixOfAnswers(ops: seq<Op>, k: nat)
    requires k <= |ops|
    ensures |MemoryResponses(ops)| == |ops| && MemoryResponses(ops)[..k] == MemoryResponses(ops[..k])
  {
    AnswerCount(ops);
    if k < |ops| {
      PrefixOfAnswers(Front(ops), k);
      FrontOfAnswers(ops);
      assert Front(ops)[..k] == ops[..k];
    } else {
      assert ops[..k] == ops;
    }
  }

  /** A run up to its operation `k`, and the answers up to then. */
  lemma UpTo(ops: seq<Op>, k: nat)
    requires k < |ops|
    ensures |MemoryResponses(ops)| == |ops| && |MemoryResponses(ops[..k + 1])| == k + 1
    ensures Front(ops[..k + 1]) == ops[..k] && Last(ops[..k + 1]) == ops[k]
    ensures Front(MemoryResponses(ops[..k + 1])) == MemoryResponses(ops)[..k]
    ensures Last(MemoryResponses(ops[..k + 1])) == MemoryResponses(ops)[k]
  {
    PrefixOfAnswers(ops, k + 1);
  }

  /** The last answer of a run is the one its history calls for. */
  lemma LastAnswerIsExpected(ops: seq<Op>)
    requires ops != [] && AdmissibleRun(ops)
    ensures |MemoryResponses(ops)| == |ops|
    ensures Expected(Front(ops), Front(MemoryResponses(ops)), Last(ops), Last(MemoryResponses(ops)))
  {
    AnswerCount(ops);
    FrontOfAnswers(ops);
    NextAnswerIsExpected(Front(ops), Last(ops));
  }

  lemma {:induction false} PrefixIsAdmissible(ops: seq<Op>, k: nat)
    requires AdmissibleRun(ops) && k <= |ops|
    ensures AdmissibleRun(ops[..k])
  {
    if k < |ops| {
      PrefixIsAdmissible(Front(ops), k);
      assert Front(ops)[..k] == ops[..k];
    } else {
      assert ops[..k] == ops;
    }
  }

  /**
   Every answer in an admissible run, of either store, follows from the operations and answers before it. A
   chat is refused when as many granted, unreleased leases are within their lifetimes as the caps allow, in
   all or for its tenant, and granted otherwise; counting counts those leases.
   */
  lemma AnswersFollowHistory(ops: seq<Op>, k: nat)
    requires AdmissibleRun(ops) && k < |ops|
    ensures var answers := MemoryResponses(ops);
            && |answers| == |ops| && RedisResponses(ops) == answers
            && Expected(ops[..k], answers[..k], ops[k], answers[k])
  {
    StoresAgree(ops);
    UpTo(ops, k);
    PrefixIsAdmissible(ops, k + 1);
    LastAnswerIsExpected(ops[..k + 1]);
  }

  // ----- One lease

  lemma {:induction false} TokensAreDrawnOnce(ops: seq<Op>, i: nat, j: nat)
    requires AdmissibleRun(ops) && i < j < |ops| && ops[i].Acquire? && ops[j].Acquire?
    ensures ops[i].token != ops[j].token
  {
    if j < |ops| - 1 {
      TokensAreDrawnOnce(Front(ops), i, j);
    } else {
      TokenIsOld(ops, i, ops[i].token);
    }
  }

  lemma RunningIsUnique(ops: seq<Op>, answers: seq<Response>, i: nat, now: real)
    requires AdmissibleRun(ops) && |answers| == |ops| && i < |ops| && ops[i].Acquire?
    ensures ops[i].token in RunningTokens(ops, answers, now) <==> Running(ops, answers, i, now)
  {
    if ops[i].token in RunningTokens(ops, answers, now) {
      var j: nat :| j < |ops| && Running(ops, answers, j, now) && ops[j].token == ops[i].token;
      if i < j {
        TokensAreDrawnOnce(ops, i, j);
      } else if j < i {
        TokensAreDrawnOnce(ops, j, i);
      }
    }
  }

  lemma MemoryShowsLive(st: MemoryState, op: Op)
    requires !op.Release?
    ensures MemoryStep(st, op).0.leases.Keys == LiveTokens(MemoryStep(st, op).0.leases, op.now)
  {
    StepLeavesLive(st, op);
  }

  lemma RedisShowsLive(keys: KeySpace, op: Op)
    requires !op.Release?
    ensures var shown := ZSet(RedisStep(keys, op).0, GLOBAL_KEY);
            shown.Keys == LiveTokens(shown, op.now)
  {
    if op.Acquire? {
      KeysDiffer(op.tenant, op.tenant);
    }
  }

  lemma SameLiveTokens(st: MemoryState, keys: KeySpace, now: real)
    requires SameLive(st, keys, now)
    ensures LiveTokens(st.leases, now) == LiveTokens(ZSet(keys, GLOBAL_KEY), now)
  {
    assert Live(st.leases, now).Keys == LiveTokens(st.leases, now);
    assert Live(ZSet(keys, GLOBAL_KEY), now).Keys == LiveTokens(ZSet(keys, GLOBAL_KEY), now);
  }

  lemma LastReadingIsLatest(ops: seq<Op>)
    requires ops != [] && AdmissibleRun(ops) && !Last(ops).Release?
    ensures NotBefore(Last(ops).now, ops)
  {
    assert forall i :: 0 <= i < |ops| - 1 ==> Front(ops)[i] == ops[i];
  }

  /**
   How long a lease lasts. Granted and not released, it is still there when the clock is read, in both
   stores, exactly while the readings stay below the time of the grant plus the lifetime asked for, which
   counts as one second if it is less.
   */
  lemma LeaseLastsItsLifetime(ops: seq<Op>, i: nat)
    requires AdmissibleRun(ops) && i < |ops| && ops[i].Acquire? && |MemoryResponses(ops)| == |ops|
    requires MemoryResponses(ops)[i].Granted? && !Last(ops).Release?
    requires forall j :: i < j < |ops| && ops[j].Release? ==> ops[j].token != ops[i].token
    ensures var inTime := Last(ops).now < ops[i].now + (if ops[i].ttl < 1 then 1.0 else ops[i].ttl as real);
            && (ops[i].token in MemoryRun(ops).leases <==> inTime)
            && (ops[i].token in ZSet(RedisRun(ops), GLOBAL_KEY) <==> inTime)
  {
    var now := Last(ops).now;
    LastReadingIsLatest(ops);
    LeasesAreRunning(ops, now);
    RunningIsUnique(ops, MemoryResponses(ops), i, now);
    StoresAgree(ops);
    SameLiveTokens(MemoryRun(ops), RedisRun(ops), now);
    MemoryShowsLive(MemoryRun(Front(ops)), Last(ops));
    RedisShowsLive(RedisRun(Front(ops)), Last(ops));
  }
}
