/**
 Leases on concurrent chats: a global cap and a cap per tenant. Two stores implement them: one keeps
 everything in process and purges all of it, the other keeps sorted sets and purges only the two it touches.
 */
module ChatSlots {
  import opened Sequences

  type Token = string
  type Leases = map<Token, real>

  datatype Op =
    | Acquire(tenant: string, globalLimit: int, tenantLimit: int, ttl: int, now: real, token: Token)
    | Release(tenant: string, token: Token)
    | Count(now: real)

  datatype Response = Granted(token: Token) | ClusterBusy | TenantBusy | Released | InFlight(n: nat)

  /** Leases that have not expired at `now`. */
  function Live(leases: Leases, now: real): Leases {
    map t | t in leases && leases[t] > now :: leases[t]
  }

  function ExpireAt(now: real, ttl: int): real {
    now + (if ttl < 1 then 1 else ttl) as real
  }

  // ----- The in-process store

  datatype MemoryState = MemoryState(leases: Leases, tenants: map<string, Leases>)

  const NO_LEASES := MemoryState(map[], map[])

  function Held(st: MemoryState, tenant: string): Leases {
    if tenant in st.tenants then st.tenants[tenant] else map[]
  }

  function Stale(leases: Leases, now: real): set<Token> {
    set t | t in leases && leases[t] <= now
  }

  /** Drop some tokens everywhere. */
  function Dropped(st: MemoryState, gone: set<Token>): MemoryState {
    MemoryState(st.leases - gone, map u | u in st.tenants :: st.tenants[u] - gone)
  }

  /** Drop every token that is stale in the global table. */
  function Purged(st: MemoryState, now: real): MemoryState {
    Dropped(st, Stale(st.leases, now))
  }

  /** The global cap is checked first; a tenant gets a table even when it is then refused. */
  function Admitted(clean: MemoryState, tenant: string, globalLimit: int, tenantLimit: int, expiry: real, token: Token)
    : (MemoryState, Response)
  {
    var held := Held(clean, tenant);
    if |clean.leases| >= globalLimit then (clean, ClusterBusy)
    else if |held| >= tenantLimit then (clean.(tenants := clean.tenants[tenant := held]), TenantBusy)
    else
      (MemoryState(clean.leases[token := expiry], clean.tenants[tenant := held[token := expiry]]), Granted(token))
  }

  function MemoryStep(st: MemoryState, op: Op): (MemoryState, Response) {
    match op
    case Acquire(tenant, globalLimit, tenantLimit, ttl, now, token) =>
      Admitted(Purged(st, now), tenant, globalLimit, tenantLimit, ExpireAt(now, ttl), token)
    case Release(tenant, token) =>
      (MemoryState(st.leases - {token},
                   if tenant in st.tenants then st.tenants[tenant := st.tenants[tenant] - {token}] else st.tenants),
       Released)
    case Count(now) =>
      var clean := Purged(st, now);
      (clean, InFlight(|clean.leases|))
  }

  lemma DropNothing(st: MemoryState)
    ensures Dropped(st, {}) == st
  {
    assert st.leases - {} == st.leases;
    assert (map u | u in st.tenants :: st.tenants[u] - {}) == st.tenants by {
      assert forall u :: u in st.tenants ==> st.tenants[u] - {} == st.tenants[u];
    }
  }

  lemma DropMore(st: MemoryState, gone: set<Token>, token: Token)
    ensures Dropped(Dropped(st, gone), {token}) == Dropped(st, gone + {token})
  {
    assert st.leases - gone - {token} == st.leases - (gone + {token});
    assert forall u :: u in st.tenants ==> st.tenants[u] - gone - {token} == st.tenants[u] - (gone + {token});
  }

  class MemoryChatSlotStore {
    var leases: Leases
    var tenants: map<string, Leases>

    ghost function State(): MemoryState
      reads this
    {
      MemoryState(leases, tenants)
    }

    constructor ()
      ensures State() == NO_LEASES
    {
      leases, tenants := map[], map[];
    }

    method Purge(now: real)
      modifies this
      ensures State() == Purged(old(State()), now)
    {
      var stale := Stale(leases, now);
      ghost var before, gone := State(), {};
      DropNothing(before);
      while stale != {}
        invariant gone + stale == Stale(before.leases, now)
        invariant State() == Dropped(before, gone)
        decreases stale
      {
        var token :| token in stale;
        DropMore(before, gone, token);
        leases := leases - {token};
        tenants := map u | u in tenants :: tenants[u] - {token};
        stale := stale - {token};
        gone := gone + {token};
      }
      assert gone == Stale(before.leases, now);
    }

    method Acquire(tenant: string, globalLimit: int, tenantLimit: int, ttl: int, now: real, token: Token)
      returns (r: Response)
      modifies this
      ensures (State(), r) == MemoryStep(old(State()), Op.Acquire(tenant, globalLimit, tenantLimit, ttl, now, token))
    {
      Purge(now);
      r := Admit(tenant, globalLimit, tenantLimit, ExpireAt(now, ttl), token);
    }

    /** The admission decision on purged tables. */
    method Admit(tenant: string, globalLimit: int, tenantLimit: int, expiry: real, token: Token) returns (r: Response)
      modifies this
      ensures (State(), r) == Admitted(old(State()), tenant, globalLimit, tenantLimit, expiry, token)
    {
      if |leases| >= globalLimit {
        return ClusterBusy;
      }
      if tenant !in tenants {
        tenants := tenants[tenant := map[]];
      }
      assert tenants == old(tenants)[tenant := Held(old(State()), tenant)];
      if |tenants[tenant]| >= tenantLimit {
        return TenantBusy;
      }
      leases := leases[token := expiry];
      tenants := tenants[tenant := tenants[tenant][token := expiry]];
      assert tenants == old(tenants)[tenant := Held(old(State()), tenant)[token := expiry]];
      r := Granted(token);
    }

    method Release(tenant: string, token: Token)
      modifies this
      ensures State() == MemoryStep(old(State()), Op.Release(tenant, token)).0
    {
      leases := leases - {token};
      if tenant in tenants {
        tenants := tenants[tenant := tenants[tenant] - {token}];
      }
    }

    method CountInFlight(now: real) returns (r: Response)
      modifies this
      ensures (State(), r) == MemoryStep(old(State()), Op.Count(now))
    {
      Purge(now);
      r := InFlight(|leases|);
    }
  }

  // ----- The shared store: one sorted set per key, scripts run atomically

  type KeySpace = map<string, Leases>

  const GLOBAL_KEY := "cs:chat:inflight:{cs:chat}"
  const TENANT_KEY_PREFIX := "cs:chat:tenant:{cs:chat}:"

  function TenantKey(tenant: string): string {
    TENANT_KEY_PREFIX + tenant
  }

  /** Keys of different tenants, and the global key, never collide. */
  lemma KeysDiffer(t: string, u: string)
    ensures TenantKey(t) != GLOBAL_KEY
    ensures TenantKey(t) == TenantKey(u) ==> t == u
  {
    assert TenantKey(t)[8] == 't' && GLOBAL_KEY[8] == 'i';
    assert TenantKey(t)[|TENANT_KEY_PREFIX|..] == t && TenantKey(u)[|TENANT_KEY_PREFIX|..] == u;
  }

  function ZSet(keys: KeySpace, key: string): Leases {
    if key in keys then keys[key] else map[]
  }

  /** Remove the members of one sorted set whose score is at most `now`. */
  function ZPurge(keys: KeySpace, key: string, now: real): KeySpace {
    keys[key := Live(ZSet(keys, key), now)]
  }

  function ZAdd(keys: KeySpace, key: string, token: Token, expiry: real): KeySpace {
    keys[key := ZSet(keys, key)[token := expiry]]
  }

  function ZRem(keys: KeySpace, key: string, token: Token): KeySpace {
    keys[key := ZSet(keys, key) - {token}]
  }

  function RedisStep(keys: KeySpace, op: Op): (KeySpace, Response) {
    match op
    case Acquire(tenant, globalLimit, tenantLimit, ttl, now, token) =>
      var mine := TenantKey(tenant);
      var clean := ZPurge(ZPurge(keys, GLOBAL_KEY, now), mine, now);
      if |ZSet(clean, GLOBAL_KEY)| >= globalLimit then (clean, ClusterBusy)
      else if |ZSet(clean, mine)| >= tenantLimit then (clean, TenantBusy)
      else
        var expiry := ExpireAt(now, ttl);
        (ZAdd(ZAdd(clean, GLOBAL_KEY, token, expiry), mine, token, expiry), Granted(token))
    case Release(tenant, token) =>
      (ZRem(ZRem(keys, GLOBAL_KEY, token), TenantKey(tenant), token), Released)
    case Count(now) =>
      var clean := ZPurge(keys, GLOBAL_KEY, now);
      (clean, InFlight(|ZSet(clean, GLOBAL_KEY)|))
  }

  class RedisChatSlotStore {
    var keys: KeySpace

    constructor ()
      ensures keys == map[]
    {
      keys := map[];
    }

    method Acquire(tenant: string, globalLimit: int, tenantLimit: int, ttl: int, now: real, token: Token)
      returns (r: Response)
      modifies this
      ensures (keys, r) == RedisStep(old(keys), Op.Acquire(tenant, globalLimit, tenantLimit, ttl, now, token))
    {
      keys := ZPurge(keys, GLOBAL_KEY, now);
      keys := ZPurge(keys, TenantKey(tenant), now);
      if |ZSet(keys, GLOBAL_KEY)| >= globalLimit {
        return ClusterBusy;
      }
      if |ZSet(keys, TenantKey(tenant))| >= tenantLimit {
        return TenantBusy;
      }
      var expiry := ExpireAt(now, ttl);
      keys := ZAdd(keys, GLOBAL_KEY, token, expiry);
      keys := ZAdd(keys, TenantKey(tenant), token, expiry);
      r := Granted(token);
    }

    method Release(tenant: string, token: Token)
      modifies this
      ensures keys == RedisStep(old(keys), Op.Release(tenant, token)).0
    {
      keys := ZRem(keys, GLOBAL_KEY, token);
      keys := ZRem(keys, TenantKey(tenant), token);
    }

    method CountInFlight(now: real) returns (r: Response)
      modifies this
      ensures (keys, r) == RedisStep(old(keys), Op.Count(now))
    {
      keys := ZPurge(keys, GLOBAL_KEY, now);
      r := InFlight(|ZSet(keys, GLOBAL_KEY)|);
    }
  }

  // ----- Runs

  function MemoryRun(ops: seq<Op>): MemoryState {
    if ops == [] then NO_LEASES else MemoryStep(MemoryRun(Front(ops)), Last(ops)).0
  }

  function RedisRun(ops: seq<Op>): KeySpace {
    if ops == [] then map[] else RedisStep(RedisRun(Front(ops)), Last(ops)).0
  }

  function MemoryResponses(ops: seq<Op>): seq<Response> {
    if ops == [] then [] else MemoryResponses(Front(ops)) + [MemoryStep(MemoryRun(Front(ops)), Last(ops)).1]
  }

  function RedisResponses(ops: seq<Op>): seq<Response> {
    if ops == [] then [] else RedisResponses(Front(ops)) + [RedisStep(RedisRun(Front(ops)), Last(ops)).1]
  }

  /** Every clock reading so far is at most `now`. */
  ghost predicate NotBefore(now: real, ops: seq<Op>) {
    forall i :: 0 <= i < |ops| && !ops[i].Release? ==> ops[i].now <= now
  }

  /** The tenant whose acquire operation drew the token. */
  function Owner(ops: seq<Op>, token: Token): Option<string> {
    if ops == [] then None
    else if Last(ops).Acquire? && Last(ops).token == token then Some(Last(ops).tenant)
    else Owner(Front(ops), token)
  }

  /** The next operation reads a clock that has not gone back, draws a fresh token, or releases its own tenant's. */
  ghost predicate Admissible(ops: seq<Op>, op: Op) {
    match op
    case Acquire(_, _, _, _, now, token) => NotBefore(now, ops) && Owner(ops, token).None?
    case Release(tenant, token) => Owner(ops, token).Some? ==> Owner(ops, token).value == tenant
    case Count(now) => NotBefore(now, ops)
  }

  ghost predicate AdmissibleRun(ops: seq<Op>) {
    ops == [] || (AdmissibleRun(Front(ops)) && Admissible(Front(ops), Last(ops)))
  }

  // ----- The in-process tables

  /** Every lease sits in exactly its owner's table, with the same expiry there. */
  ghost predicate Consistent(st: MemoryState, ops: seq<Op>) {
    && (forall t :: t in st.leases ==> Owner(ops, t).Some?)
    && (forall u, t :: t in Held(st, u) <==> t in st.leases && Owner(ops, t) == Some(u))
    && (forall u, t :: t in Held(st, u) ==> Held(st, u)[t] == st.leases[t])
  }

  lemma HeldDropped(st: MemoryState, gone: set<Token>, u: string)
    ensures Held(Dropped(st, gone), u) == Held(st, u) - gone
  {
    if u !in st.tenants {
      assert Held(st, u) - gone == map[];
    }
  }

  lemma DroppedStaysConsistent(st: MemoryState, gone: set<Token>, ops: seq<Op>)
    requires Consistent(st, ops)
    ensures Consistent(Dropped(st, gone), ops)
  {
    forall u { HeldDropped(st, gone, u); }
  }

  lemma MoreOps(st: MemoryState, ops: seq<Op>)
    requires ops != [] && Consistent(st, Front(ops))
    requires Last(ops).Acquire? ==> Last(ops).token !in st.leases
    ensures !Last(ops).Acquire? ==> Consistent(st, ops)
    ensures forall t :: t in st.leases ==> Owner(ops, t) == Owner(Front(ops), t)
  {}

  lemma AcquireStaysConsistent(clean: MemoryState, ops: seq<Op>)
    requires ops != [] && Last(ops).Acquire? && Owner(Front(ops), Last(ops).token).None?
    requires Consistent(clean, Front(ops))
    ensures var op, expiry := Last(ops), ExpireAt(Last(ops).now, Last(ops).ttl);
            && Consistent(clean, ops)
            && Consistent(clean.(tenants := clean.tenants[op.tenant := Held(clean, op.tenant)]), ops)
            && Consistent(MemoryState(clean.leases[op.token := expiry],
                                      clean.tenants[op.tenant := Held(clean, op.tenant)[op.token := expiry]]), ops)
  {
    MoreOps(clean, ops);
    var op, expiry := Last(ops), ExpireAt(Last(ops).now, Last(ops).ttl);
    assert Consistent(clean, ops);
    var same := clean.(tenants := clean.tenants[op.tenant := Held(clean, op.tenant)]);
    assert forall u :: Held(same, u) == Held(clean, u);
    var more := MemoryState(clean.leases[op.token := expiry],
                            clean.tenants[op.tenant := Held(clean, op.tenant)[op.token := expiry]]);
    assert forall u :: Held(more, u) == if u == op.tenant then Held(clean, u)[op.token := expiry] else Held(clean, u);
  }

  lemma HeldAfterRelease(st: MemoryState, tenant: string, token: Token, u: string)
    ensures Held(MemoryStep(st, Op.Release(tenant, token)).0, u) == if u == tenant then Held(st, u) - {token} else Held(st, u)
  {
    if u == tenant && u !in st.tenants {
      assert Held(st, u) - {token} == map[];
    }
  }

  lemma OwnReleaseIsClean(st: MemoryState, ops: seq<Op>, tenant: string, token: Token)
    requires Consistent(st, ops) && (token in st.leases ==> Owner(ops, token) == Some(tenant))
    ensures Consistent(MemoryStep(st, Op.Release(tenant, token)).0, ops)
  {
    var st' := MemoryStep(st, Op.Release(tenant, token)).0;
    forall u, t
      ensures t in Held(st', u) <==> t in st'.leases && Owner(ops, t) == Some(u)
      ensures t in Held(st', u) ==> Held(st', u)[t] == st'.leases[t]
    {
      HeldAfterRelease(st, tenant, token, u);
      assert t in Held(st, u) <==> t in st.leases && Owner(ops, t) == Some(u);
    }
  }

  lemma ReleaseStaysConsistent(st: MemoryState, ops: seq<Op>)
    requires ops != [] && Last(ops).Release? && Consistent(st, Front(ops))
    requires Owner(Front(ops), Last(ops).token).Some? ==> Owner(Front(ops), Last(ops).token).value == Last(ops).tenant
    ensures Consistent(MemoryStep(st, Last(ops)).0, ops)
  {
    OwnReleaseIsClean(st, Front(ops), Last(ops).tenant, Last(ops).token);
    MoreOps(MemoryStep(st, Last(ops)).0, ops);
  }

  lemma {:induction false} TablesStayConsistent(ops: seq<Op>)
    requires AdmissibleRun(ops)
    ensures Consistent(MemoryRun(ops), ops)
  {
    if ops != [] {
      var st, op := MemoryRun(Front(ops)), Last(ops);
      TablesStayConsistent(Front(ops));
      if op.Release? {
        ReleaseStaysConsistent(st, ops);
      } else {
        DroppedStaysConsistent(st, Stale(st.leases, op.now), Front(ops));
        if op.Acquire? {
          AcquireStaysConsistent(Purged(st, op.now), ops);
        } else {
          MoreOps(Purged(st, op.now), ops);
        }
      }
    }
  }

  /** In every admissible run the global table is the disjoint union of the tenant tables, with equal expiries. */
  lemma GlobalIsDisjointUnion(ops: seq<Op>)
    requires AdmissibleRun(ops)
    ensures var st := MemoryRun(ops);
            && (forall t :: t in st.leases <==> exists u :: t in Held(st, u))
            && (forall u, t :: t in Held(st, u) ==> Held(st, u)[t] == st.leases[t])
            && (forall u, v, t :: t in Held(st, u) && t in Held(st, v) ==> u == v)
  {
    TablesStayConsistent(ops);
    UnionOfConsistent(MemoryRun(ops), ops);
  }

  lemma UnionOfConsistent(st: MemoryState, ops: seq<Op>)
    requires Consistent(st, ops)
    ensures forall t :: t in st.leases <==> exists u :: t in Held(st, u)
    ensures forall u, t :: t in Held(st, u) ==> Held(st, u)[t] == st.leases[t]
    ensures forall u, v, t :: t in Held(st, u) && t in Held(st, v) ==> u == v
  {
    forall t | t in st.leases ensures exists u :: t in Held(st, u) {
      assert t in Held(st, Owner(ops, t).value);
    }
    forall u, v, t | t in Held(st, u) && t in Held(st, v) ensures u == v {
      assert Owner(ops, t) == Some(u) && Owner(ops, t) == Some(v);
    }
  }

  /** Reading the clock leaves only leases that expire later, in every table. */
  lemma NothingOutlivesItsExpiry(ops: seq<Op>)
    requires AdmissibleRun(ops) && ops != [] && !Last(ops).Release?
    ensures AllLive(MemoryRun(ops), Last(ops).now)
  {
    TablesStayConsistent(ops);
    StepLeavesLive(MemoryRun(Front(ops)), Last(ops));
    TablesAreLive(MemoryRun(ops), ops, Last(ops).now);
  }

  ghost predicate AllLive(st: MemoryState, now: real) {
    && (forall t :: t in st.leases ==> st.leases[t] > now)
    && (forall u, t :: t in Held(st, u) ==> Held(st, u)[t] > now)
  }

  lemma TablesAreLive(st: MemoryState, ops: seq<Op>, now: real)
    requires Consistent(st, ops) && forall t :: t in st.leases ==> st.leases[t] > now
    ensures AllLive(st, now)
  {
    forall u, t | t in Held(st, u) ensures Held(st, u)[t] > now {
      assert t in st.leases && Held(st, u)[t] == st.leases[t];
    }
  }

  lemma StepLeavesLive(st: MemoryState, op: Op)
    requires !op.Release?
    ensures forall t :: t in MemoryStep(st, op).0.leases ==> MemoryStep(st, op).0.leases[t] > op.now
  {
    var clean := Purged(st, op.now);
    assert forall t :: t in clean.leases ==> clean.leases[t] > op.now;
  }

  /** A grant leaves no more live leases than either limit allows, and the new one among them. */
  lemma GrantsRespectLimits(ops: seq<Op>)
    requires ops != [] && Last(ops).Acquire? && Last(MemoryResponses(ops)).Granted?
    ensures var st, op := MemoryRun(ops), Last(ops);
            && |st.leases| <= op.globalLimit
            && |Held(st, op.tenant)| <= op.tenantLimit
            && op.token in Held(st, op.tenant) && st.leases[op.token] == ExpireAt(op.now, op.ttl)
  {
    var op := Last(ops);
    var clean := Purged(MemoryRun(Front(ops)), op.now);
    assert Last(MemoryResponses(ops)) == MemoryStep(MemoryRun(Front(ops)), op).1;
    UpdateGrows(clean.leases, op.token, ExpireAt(op.now, op.ttl));
    UpdateGrows(Held(clean, op.tenant), op.token, ExpireAt(op.now, op.ttl));
  }

  lemma UpdateGrows(m: Leases, t: Token, e: real)
    ensures |m[t := e]| <= |m| + 1
  {
    assert m[t := e].Keys == m.Keys + {t};
    if t in m {
      assert m.Keys + {t} == m.Keys;
    }
  }

  /** The operation at `i` granted the token a lease. */
  predicate GrantedAt(ops: seq<Op>, i: nat, token: Token) {
    i < |ops| && MemoryStep(MemoryRun(ops[..i]), ops[i]).1 == Granted(token)
  }

  /** The operation neither releases the token nor reads a clock that has reached `expiry`. */
  predicate Harmless(op: Op, token: Token, expiry: real) {
    if op.Release? then op.token != token else op.now < expiry
  }

  ghost predicate HoldsLease(st: MemoryState, token: Token, expiry: real) {
    token in st.leases && st.leases[token] == expiry
  }

  /** An unreleased lease stays from its grant to the end of the run, until its expiry, whatever else happens. */
  lemma {:induction false} LeaseLastsUntilExpiry(ops: seq<Op>, i: nat, token: Token)
    requires AdmissibleRun(ops) && i < |ops| && ops[i].Acquire? && ops[i].token == token && GrantedAt(ops, i, token)
    requires forall k :: i < k < |ops| ==> Harmless(ops[k], token, ExpireAt(ops[i].now, ops[i].ttl))
    ensures HoldsLease(MemoryRun(ops), token, ExpireAt(ops[i].now, ops[i].ttl))
  {
    if i < |ops| - 1 {
      GrantedEarlier(ops, i, token);
      LeaseLastsUntilExpiry(Front(ops), i, token);
      TokenIsOld(ops, i, token);
      RunKeepsLease(ops, token, ExpireAt(ops[i].now, ops[i].ttl));
    } else {
      RunRecordsGrant(ops, token);
    }
  }

  lemma GrantedEarlier(ops: seq<Op>, i: nat, token: Token)
    requires i < |ops| - 1 && GrantedAt(ops, i, token)
    ensures GrantedAt(Front(ops), i, token) && Front(ops)[i] == ops[i]
  {
    assert Front(ops)[..i] == ops[..i];
  }

  lemma RunKeepsLease(ops: seq<Op>, token: Token, expiry: real)
    requires ops != [] && HoldsLease(MemoryRun(Front(ops)), token, expiry)
    requires Harmless(Last(ops), token, expiry) && (Last(ops).Acquire? ==> Last(ops).token != token)
    ensures HoldsLease(MemoryRun(ops), token, expiry)
  {
    LeaseLastsOneStep(MemoryRun(Front(ops)), Last(ops), token, expiry);
  }

  lemma RunRecordsGrant(ops: seq<Op>, token: Token)
    requires ops != [] && Last(ops).Acquire? && GrantedAt(ops, |ops| - 1, token)
    ensures HoldsLease(MemoryRun(ops), token, ExpireAt(Last(ops).now, Last(ops).ttl))
  {
    assert ops[..|ops| - 1] == Front(ops);
    GrantIsRecorded(MemoryRun(Front(ops)), Last(ops), token);
  }

  lemma LeaseLastsOneStep(st: MemoryState, op: Op, token: Token, expiry: real)
    requires HoldsLease(st, token, expiry) && Harmless(op, token, expiry) && (op.Acquire? ==> op.token != token)
    ensures HoldsLease(MemoryStep(st, op).0, token, expiry)
  {
    StepKeepsLease(st, op, token);
  }

  lemma GrantIsRecorded(st: MemoryState, op: Op, token: Token)
    requires op.Acquire? && MemoryStep(st, op).1 == Granted(token)
    ensures op.token == token
    ensures HoldsLease(MemoryStep(st, op).0, token, ExpireAt(op.now, op.ttl))
  {}

  lemma {:induction false} OwnerIsFound(ops: seq<Op>, i: nat)
    requires i < |ops| && ops[i].Acquire?
    ensures Owner(ops, ops[i].token).Some?
  {
    if i < |ops| - 1 { OwnerIsFound(Front(ops), i); }
  }

  /** A later acquire draws another token. */
  lemma TokenIsOld(ops: seq<Op>, i: nat, token: Token)
    requires AdmissibleRun(ops) && i < |ops| - 1 && ops[i].Acquire? && ops[i].token == token
    ensures Last(ops).Acquire? ==> Last(ops).token != token
  {
    assert Front(ops)[i] == ops[i];
    OwnerIsFound(Front(ops), i);
  }

  lemma StepKeepsLease(st: MemoryState, op: Op, token: Token)
    requires token in st.leases
    requires op.Release? || op.Acquire? ==> op.token != token
    requires !op.Release? ==> op.now < st.leases[token]
    ensures var st' := MemoryStep(st, op).0; token in st'.leases && st'.leases[token] == st.leases[token]
  {
    if !op.Release? {
      assert token in Purged(st, op.now).leases;
    }
  }

  // ----- The two stores agree

  /** At time `now` both stores hold the same live leases, globally and for every tenant. */
  ghost predicate SameLive(st: MemoryState, keys: KeySpace, now: real) {
    && Live(st.leases, now) == Live(ZSet(keys, GLOBAL_KEY), now)
    && forall u :: SameHeld(st, keys, u, now)
  }

  ghost predicate SameHeld(st: MemoryState, keys: KeySpace, u: string, now: real) {
    Live(Held(st, u), now) == Live(ZSet(keys, TenantKey(u)), now)
  }

  /** Purging keeps what is live from `now` on. */
  lemma LiveOfLive(a: Leases, now: real, later: real)
    requires now <= later
    ensures Live(Live(a, now), later) == Live(a, later)
  {}

  lemma LiveUpdate(a: Leases, b: Leases, now: real, t: Token, e: real)
    requires Live(a, now) == Live(b, now)
    ensures Live(a[t := e], now) == Live(b[t := e], now)
  {
    var la, lb := Live(a, now), Live(b, now);
    assert Live(a[t := e], now) == if e > now then la[t := e] else la - {t};
    assert Live(b[t := e], now) == if e > now then lb[t := e] else lb - {t};
  }

  lemma LiveMinus(a: Leases, now: real, t: Token)
    ensures Live(a - {t}, now) == Live(a, now) - {t}
  {}

  lemma PurgedIsLive(st: MemoryState, ops: seq<Op>, now: real)
    requires Consistent(st, ops)
    ensures Purged(st, now).leases == Live(st.leases, now)
    ensures forall u :: Held(Purged(st, now), u) == Live(Held(st, u), now)
  {
    forall u ensures Held(Purged(st, now), u) == Live(Held(st, u), now) {
      HeldDropped(st, Stale(st.leases, now), u);
    }
  }

  /** From here on the stores cannot be told apart by any clock reading allowed after `ops`. */
  ghost predicate Simulates(st: MemoryState, keys: KeySpace, ops: seq<Op>) {
    forall now :: NotBefore(now, ops) ==> SameLive(st, keys, now)
  }

  lemma LaterSameLive(st: MemoryState, keys: KeySpace, now: real, later: real)
    requires SameLive(st, keys, now) && now <= later
    ensures SameLive(st, keys, later)
  {
    LiveOfLive(st.leases, now, later);
    LiveOfLive(ZSet(keys, GLOBAL_KEY), now, later);
    forall u ensures SameHeld(st, keys, u, later) {
      assert SameHeld(st, keys, u, now);
      LiveOfLive(Held(st, u), now, later);
      LiveOfLive(ZSet(keys, TenantKey(u)), now, later);
    }
  }

  /** After both stores have purged what they purge at `now`, they agree on what the caller's tenant can see. */
  lemma PurgesAgree(st: MemoryState, keys: KeySpace, ops: seq<Op>, tenant: string, now: real)
    requires Consistent(st, ops) && SameLive(st, keys, now)
    ensures var clean, one := Purged(st, now), ZPurge(keys, GLOBAL_KEY, now);
            var both := ZPurge(one, TenantKey(tenant), now);
            && SameLive(clean, one, now) && SameLive(clean, both, now)
            && clean.leases == ZSet(one, GLOBAL_KEY) == ZSet(both, GLOBAL_KEY)
            && Held(clean, tenant) == ZSet(both, TenantKey(tenant))
  {
    PurgedIsLive(st, ops, now);
    var clean, one := Purged(st, now), ZPurge(keys, GLOBAL_KEY, now);
    var both := ZPurge(one, TenantKey(tenant), now);
    KeysDiffer(tenant, tenant);
    assert SameHeld(st, keys, tenant, now);
    LiveOfLive(st.leases, now, now);
    LiveOfLive(ZSet(keys, GLOBAL_KEY), now, now);
    forall u ensures SameHeld(clean, one, u, now) && SameHeld(clean, both, u, now) {
      assert SameHeld(st, keys, u, now);
      KeysDiffer(u, tenant);
      LiveOfLive(Held(st, u), now, now);
      LiveOfLive(ZSet(keys, TenantKey(u)), now, now);
    }
  }

  /** Adding the same lease to both stores keeps them indistinguishable, at any time. */
  lemma GrantsAgree(clean: MemoryState, keys: KeySpace, tenant: string, token: Token, expiry: real, now: real)
    requires SameLive(clean, keys, now)
    ensures SameLive(MemoryState(clean.leases[token := expiry], clean.tenants[tenant := Held(clean, tenant)[token := expiry]]),
                     ZAdd(ZAdd(keys, GLOBAL_KEY, token, expiry), TenantKey(tenant), token, expiry), now)
  {
    var st := MemoryState(clean.leases[token := expiry], clean.tenants[tenant := Held(clean, tenant)[token := expiry]]);
    var keys' := ZAdd(ZAdd(keys, GLOBAL_KEY, token, expiry), TenantKey(tenant), token, expiry);
    KeysDiffer(tenant, tenant);
    LiveUpdate(clean.leases, ZSet(keys, GLOBAL_KEY), now, token, expiry);
    forall u ensures SameHeld(st, keys', u, now) {
      KeysDiffer(u, tenant);
      assert SameHeld(clean, keys, u, now);
      LiveUpdate(Held(clean, u), ZSet(keys, TenantKey(u)), now, token, expiry);
    }
  }

  lemma ReleasesAgree(st: MemoryState, keys: KeySpace, tenant: string, token: Token, now: real)
    requires SameLive(st, keys, now)
    ensures SameLive(MemoryStep(st, Op.Release(tenant, token)).0, RedisStep(keys, Op.Release(tenant, token)).0, now)
  {
    var st', keys' := MemoryStep(st, Op.Release(tenant, token)).0, RedisStep(keys, Op.Release(tenant, token)).0;
    KeysDiffer(tenant, tenant);
    LiveMinus(st.leases, now, token);
    LiveMinus(ZSet(keys, GLOBAL_KEY), now, token);
    forall u ensures SameHeld(st', keys', u, now) {
      KeysDiffer(u, tenant);
      assert SameHeld(st, keys, u, now);
      LiveMinus(Held(st, u), now, token);
      LiveMinus(ZSet(keys, TenantKey(u)), now, token);
      assert u == tenant ==> Held(st', u) == Held(st, u) - {token};
    }
  }

  /** One operation: same response, and still the same live leases from its clock reading on. */
  lemma StepsAgree(st: MemoryState, keys: KeySpace, ops: seq<Op>, op: Op)
    requires Consistent(st, ops) && !op.Release? && SameLive(st, keys, op.now)
    ensures MemoryStep(st, op).1 == RedisStep(keys, op).1
    ensures SameLive(MemoryStep(st, op).0, RedisStep(keys, op).0, op.now)
  {
    match op
    case Acquire(tenant, globalLimit, tenantLimit, ttl, now, token) =>
      PurgesAgree(st, keys, ops, tenant, now);
      var clean := Purged(st, now);
      var both := ZPurge(ZPurge(keys, GLOBAL_KEY, now), TenantKey(tenant), now);
      GrantsAgree(clean, both, tenant, token, ExpireAt(now, ttl), now);
      TouchTenant(clean, both, tenant, now);
    case Count(now) =>
      PurgesAgree(st, keys, ops, "", now);
  }

  lemma TouchTenant(clean: MemoryState, keys: KeySpace, tenant: string, now: real)
    requires SameLive(clean, keys, now)
    ensures SameLive(clean.(tenants := clean.tenants[tenant := Held(clean, tenant)]), keys, now)
  {
    var st := clean.(tenants := clean.tenants[tenant := Held(clean, tenant)]);
    forall u ensures SameHeld(st, keys, u, now) {
      assert SameHeld(clean, keys, u, now) && Held(st, u) == Held(clean, u);
    }
  }

  /**
   In every admissible run the store that purges lazily, two keys at a time, answers every operation exactly
   as the store that purges everything: same grants, same busy reasons, same counts.
   */
  lemma {:induction false} StoresAgree(ops: seq<Op>)
    requires AdmissibleRun(ops)
    ensures MemoryResponses(ops) == RedisResponses(ops)
    ensures Simulates(MemoryRun(ops), RedisRun(ops), ops)
  {
    if ops != [] {
      var st, keys, op := MemoryRun(Front(ops)), RedisRun(Front(ops)), Last(ops);
      StoresAgree(Front(ops));
      TablesStayConsistent(Front(ops));
      if !op.Release? {
        StepsAgree(st, keys, Front(ops), op);
      }
      forall now | NotBefore(now, ops) ensures SameLive(MemoryRun(ops), RedisRun(ops), now) {
        assert NotBefore(now, Front(ops)) by {
          assert forall i :: 0 <= i < |ops| - 1 ==> Front(ops)[i] == ops[i];
        }
        if op.Release? {
          ReleasesAgree(st, keys, op.tenant, op.token, now);
        } else {
          assert op == ops[|ops| - 1];
          LaterSameLive(MemoryRun(ops), RedisRun(ops), op.now, now);
        }
      }
    }
  }

  /**
   The exact condition on releases: a release keeps the tables consistent if and only if its token is not live
   or the tenant named is the one that acquired it.
   */
  lemma ReleaseKeepsTablesIff(st: MemoryState, ops: seq<Op>, tenant: string, token: Token)
    requires Consistent(st, ops)
    ensures Consistent(MemoryStep(st, Op.Release(tenant, token)).0, ops) <==>
              (token in st.leases ==> Owner(ops, token) == Some(tenant))
  {
    if token in st.leases && Owner(ops, token) != Some(tenant) {
      ForeignReleaseLeaks(st, ops, tenant, token);
    } else {
      OwnReleaseIsClean(st, ops, tenant, token);
    }
  }

  /** The owner's table keeps a token that the global one has lost. */
  lemma ForeignReleaseLeaks(st: MemoryState, ops: seq<Op>, tenant: string, token: Token)
    requires Consistent(st, ops) && token in st.leases && Owner(ops, token) != Some(tenant)
    ensures Owner(ops, token).Some?
    ensures var st' := MemoryStep(st, Op.Release(tenant, token)).0;
            && token in Held(st', Owner(ops, token).value) && token !in st'.leases
            && !Consistent(st', ops)
  {
    var owner := Owner(ops, token).value;
    HeldAfterRelease(st, tenant, token, owner);
    assert token in Held(st, owner);
  }

  ghost predicate Leaked(st: MemoryState, u: string, token: Token) {
    token in Held(st, u) && token !in st.leases
  }

  /**
   A token that is in a tenant's table but no longer in the global one, as such a release leaves it, stays there
   through every purge and every operation but its owner's release: the tenant has lost that slot.
   */
  lemma LeakedTokenStays(st: MemoryState, op: Op, u: string, token: Token)
    requires Leaked(st, u, token)
    requires op != Op.Release(u, token) && !(op.Acquire? && op.token == token)
    ensures Leaked(MemoryStep(st, op).0, u, token)
  {
    match op
    case Release(tenant, other) => HeldAfterRelease(st, tenant, other, u);
    case Count(now) => LeakSurvivesPurge(st, now, u, token);
    case Acquire(tenant, globalLimit, tenantLimit, ttl, now, other) =>
      LeakSurvivesPurge(st, now, u, token);
      LeakSurvivesAdmission(Purged(st, now), tenant, globalLimit, tenantLimit, ExpireAt(now, ttl), other, u, token);
  }

  lemma LeakSurvivesPurge(st: MemoryState, now: real, u: string, token: Token)
    requires Leaked(st, u, token)
    ensures Leaked(Purged(st, now), u, token)
  {
    HeldDropped(st, Stale(st.leases, now), u);
  }

  lemma LeakSurvivesAdmission(clean: MemoryState, tenant: string, globalLimit: int, tenantLimit: int, expiry: real,
                              other: Token, u: string, token: Token)
    requires Leaked(clean, u, token) && other != token
    ensures Leaked(Admitted(clean, tenant, globalLimit, tenantLimit, expiry, other).0, u, token)
  {}

  /**
   A run that shows it: releasing a token under another tenant leaves it in its owner's table, where
   the in-process store, which purges only what its global table lists, never finds it again.
   */
  lemma ForeignReleaseDiverges()
    ensures var ops := [Op.Acquire("a", 5, 1, 1, 0.0, "t"), Op.Release("b", "t"), Op.Acquire("a", 5, 1, 1, 9.0, "u")];
            Last(MemoryResponses(ops)) == TenantBusy && Last(RedisResponses(ops)) == Granted("u")
  {
    var ops := [Op.Acquire("a", 5, 1, 1, 0.0, "t"), Op.Release("b", "t"), Op.Acquire("a", 5, 1, 1, 9.0, "u")];
    assert Front(ops) == [Op.Acquire("a", 5, 1, 1, 0.0, "t"), Op.Release("b", "t")];
    assert Front(Front(ops)) == [Op.Acquire("a", 5, 1, 1, 0.0, "t")];
    assert Front(Front(Front(ops))) == [];
    KeysDiffer("a", "b");
  }

  // ----- A foreign release is always found out

  lemma {:induction false} AfterAll(leases: Leases, keys: set<Token>, from: real) returns (now: real)
    requires keys == leases.Keys
    ensures now >= from && forall t :: t in leases ==> leases[t] <= now
    decreases |keys|
  {
    now := from;
    if keys != {} {
      var t :| t in keys;
      var rest := leases - {t};
      now := AfterAll(rest, rest.Keys, from);
      now := if leases[t] > now then leases[t] else now;
      forall u | u in leases ensures leases[u] <= now {
        assert u != t ==> u in rest;
      }
    }
  }

  lemma {:induction false} AfterClock(ops: seq<Op>) returns (now: real)
    ensures NotBefore(now, ops)
  {
    now := 0.0;
    if ops != [] {
      now := AfterClock(Front(ops));
      var last := Last(ops);
      now := if !last.Release? && last.now > now then last.now else now;
      forall i | 0 <= i < |ops| && !ops[i].Release? ensures ops[i].now <= now {
        assert i < |ops| - 1 ==> Front(ops)[i] == ops[i];
      }
    }
  }

  /** A token longer than every one drawn so far. */
  lemma {:induction false} NewToken(ops: seq<Op>) returns (token: Token)
    ensures forall t :: Owner(ops, t).Some? ==> |t| < |token|
  {
    token := "t";
    if ops != [] {
      var before := NewToken(Front(ops));
      token := before;
      if Last(ops).Acquire? && |Last(ops).token| >= |before| {
        token := Last(ops).token + "t";
      }
    }
  }

  lemma NothingLive(leases: Leases, now: real)
    requires forall t :: t in leases ==> leases[t] <= now
    ensures Live(leases, now) == map[]
  {}

  /** The in-process store still counts the leaked token against its owner, with every lease expired. */
  lemma MemoryRefuses(st: MemoryState, owner: string, leaked: Token, now: real, token: Token)
    requires Leaked(st, owner, leaked)
    requires forall t :: t in st.leases ==> st.leases[t] <= now
    ensures MemoryStep(st, Op.Acquire(owner, 1, 1, 1, now, token)).1 == TenantBusy
  {
    var clean := Purged(st, now);
    LeakSurvivesPurge(st, now, owner, leaked);
    assert |clean.leases| == 0 by {
      assert clean.leases == map[];
    }
    assert leaked in Held(clean, owner).Keys;
    assert |Held(clean, owner).Keys| > 0;
  }

  /** The shared store grants: what it purges is what it looks at. */
  lemma RedisGrants(keys: KeySpace, owner: string, now: real, token: Token)
    requires forall t :: t in ZSet(keys, GLOBAL_KEY) ==> ZSet(keys, GLOBAL_KEY)[t] <= now
    requires forall t :: t in ZSet(keys, TenantKey(owner)) ==> ZSet(keys, TenantKey(owner))[t] <= now
    ensures RedisStep(keys, Op.Acquire(owner, 1, 1, 1, now, token)).1 == Granted(token)
  {
    KeysDiffer(owner, owner);
    NothingLive(ZSet(keys, GLOBAL_KEY), now);
    NothingLive(ZSet(keys, TenantKey(owner)), now);
    var purged := ZPurge(ZPurge(keys, GLOBAL_KEY, now), TenantKey(owner), now);
    assert ZSet(purged, GLOBAL_KEY) == map[] && ZSet(purged, TenantKey(owner)) == map[];
  }

  /**
   After any admissible run: releasing a live token under a tenant that did not acquire it is followed by some
   admissible acquire on which the two stores answer differently.
   */
  lemma ForeignReleaseIsFoundOut(ops: seq<Op>, tenant: string, leaked: Token) returns (next: Op)
    requires AdmissibleRun(ops) && leaked in MemoryRun(ops).leases && Owner(ops, leaked) != Some(tenant)
    ensures next.Acquire? && Admissible(ops + [Op.Release(tenant, leaked)], next)
    ensures var run := ops + [Op.Release(tenant, leaked)] + [next];
            Last(MemoryResponses(run)) != Last(RedisResponses(run))
  {
    var released := ops + [Op.Release(tenant, leaked)];
    var st, keys := MemoryRun(released), RedisRun(released);
    assert Front(released) == ops;
    TablesStayConsistent(ops);
    ForeignReleaseLeaks(MemoryRun(ops), ops, tenant, leaked);
    var owner := Owner(ops, leaked).value;
    var now := AfterClock(released);
    now := AfterAll(st.leases, st.leases.Keys, now);
    now := AfterAll(ZSet(keys, GLOBAL_KEY), ZSet(keys, GLOBAL_KEY).Keys, now);
    now := AfterAll(ZSet(keys, TenantKey(owner)), ZSet(keys, TenantKey(owner)).Keys, now);
    var token := NewToken(released);
    next := Op.Acquire(owner, 1, 1, 1, now, token);
    MemoryRefuses(st, owner, leaked, now, token);
    RedisGrants(keys, owner, now, token);
    assert Front(released + [next]) == released;
  }

  /** The two stores go on answering alike after a release, whatever is acquired next. */
  ghost predicate AlikeAfter(ops: seq<Op>, release: Op) {
    forall next: Op :: next.Acquire? && Admissible(ops + [release], next) ==>
      Last(MemoryResponses(ops + [release] + [next])) == Last(RedisResponses(ops + [release] + [next]))
  }

  /**
   The exact condition for agreement: after any admissible run, releasing a live token leaves the two stores alike if
   and only if the tenant named is the one that acquired it.
   */
  lemma StoresAgreeAfterReleaseIff(ops: seq<Op>, tenant: string, token: Token)
    requires AdmissibleRun(ops) && token in MemoryRun(ops).leases
    ensures AlikeAfter(ops, Op.Release(tenant, token)) <==> Owner(ops, token) == Some(tenant)
  {
    if Owner(ops, token) == Some(tenant) {
      OwnReleaseStaysAlike(ops, tenant, token);
    } else {
      var next := ForeignReleaseIsFoundOut(ops, tenant, token);
    }
  }

  lemma AdmissibleNext(ops: seq<Op>, op: Op)
    requires AdmissibleRun(ops) && Admissible(ops, op)
    ensures AdmissibleRun(ops + [op])
  {
    assert Front(ops + [op]) == ops;
  }

  lemma OwnReleaseStaysAlike(ops: seq<Op>, tenant: string, token: Token)
    requires AdmissibleRun(ops) && Owner(ops, token) == Some(tenant)
    ensures AlikeAfter(ops, Op.Release(tenant, token))
  {
    var released := ops + [Op.Release(tenant, token)];
    AdmissibleNext(ops, Op.Release(tenant, token));
    forall next: Op | next.Acquire? && Admissible(released, next)
      ensures Last(MemoryResponses(released + [next])) == Last(RedisResponses(released + [next]))
    {
      AdmissibleNext(released, next);
      StoresAgree(released + [next]);
    }
  }
}
