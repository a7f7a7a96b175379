/** One budget pass over a kept list: all system messages stay, and a greedy suffix of whole turns. */
module BudgetTrim {
  import opened Messages
  import opened Sequences
  import opened Turns
  import opened TurnStability
  import opened Window

  ghost predicate Within(ps: seq<nat>, n: nat) {
    forall k :: 0 <= k < |ps| ==> ps[k] < n
  }

  function At<T>(xs: seq<T>, ps: seq<nat>): (ys: seq<T>)
    requires Within(ps, |xs|)
    ensures |ys| == |ps|
  {
    seq(|ps|, k requires 0 <= k < |ps| => xs[ps[k]])
  }

  ghost predicate TurnsWithin(turns: seq<seq<nat>>, n: nat) {
    forall i :: 0 <= i < |turns| ==> turns[i] != [] && Within(turns[i], n)
  }

  lemma RunIsWithin(roles: seq<Role>, turn: seq<nat>)
    requires IsRun(roles, turn)
    ensures turn != [] && Within(turn, |roles|)
  {}

  lemma TurnsAreWithin(roles: seq<Role>)
    ensures TurnsWithin(TurnsOf(roles), |roles|)
    ensures TurnsWithin(ClosedTurns(roles), |roles|)
    ensures Within(OpenTurn(roles), |roles|)
    ensures Within(SystemPositions(roles), |roles|)
  {
    TurnsAreRuns(roles);
    forall i | 0 <= i < |ClosedTurns(roles)| ensures ClosedTurns(roles)[i] != [] && Within(ClosedTurns(roles)[i], |roles|) {
      RunIsWithin(roles, ClosedTurns(roles)[i]);
    }
    SystemsAreWithin(roles);
  }

  lemma {:induction false} SystemsAreWithin(roles: seq<Role>)
    ensures Within(SystemPositions(roles), |roles|)
  {
    if roles != [] {
      SystemsAreWithin(Front(roles));
    }
  }

  // ----- Picking by tag is collecting whole turns

  /** The elements of the turns whose first element is tagged `b`, turn by turn. */
  function TaggedTurns<T, B(==)>(xs: seq<T>, turns: seq<seq<nat>>, tags: seq<B>, b: B): seq<T>
    requires |xs| == |tags| && TurnsWithin(turns, |xs|)
  {
    if turns == [] then []
    else TaggedTurns(xs, Front(turns), tags, b) + TaggedTurn(xs, Last(turns), tags, b)
  }

  function TaggedTurn<T, B(==)>(xs: seq<T>, turn: seq<nat>, tags: seq<B>, b: B): seq<T>
    requires |xs| == |tags| && Within(turn, |xs|)
  {
    if turn != [] && tags[turn[0]] == b then At(xs, turn) else []
  }

  lemma {:induction false} TaggedTurnsPrefix<T, B>(xs: seq<T>, turns: seq<seq<nat>>, tags: seq<B>, b: B, n: nat)
    requires n <= |xs| == |tags| && TurnsWithin(turns, n)
    ensures TaggedTurns(xs[..n], turns, tags[..n], b) == TaggedTurns(xs, turns, tags, b)
  {
    if turns != [] {
      TaggedTurnsPrefix(xs, Front(turns), tags, b, n);
      assert Within(Last(turns), n);
      assert At(xs[..n], Last(turns)) == At(xs, Last(turns));
    }
  }

  lemma {:induction false} OpenTurnUniform<B>(roles: seq<Role>, tags: seq<B>)
    requires WholeTurns(roles, tags)
    ensures OpenTurn(roles) != [] ==> Last(tags) == tags[OpenTurn(roles)[0]]
  {
    if roles != [] {
      WholeTurnsFront(roles, tags);
      OpenTurnUniform(Front(roles), Front(tags));
      OpenTurnStep(roles);
      LastIsGlued(roles);
    }
  }

  lemma TaggedTurnsSnoc<T, B>(xs: seq<T>, turns: seq<seq<nat>>, turn: seq<nat>, tags: seq<B>, b: B)
    requires |xs| == |tags| && TurnsWithin(turns, |xs|) && turn != [] && Within(turn, |xs|)
    ensures TurnsWithin(turns + [turn], |xs|)
    ensures TaggedTurns(xs, turns + [turn], tags, b) == TaggedTurns(xs, turns, tags, b) + TaggedTurn(xs, turn, tags, b)
  {
    assert Front(turns + [turn]) == turns;
  }

  lemma TaggedTurnPrefix<T, B>(xs: seq<T>, turn: seq<nat>, tags: seq<B>, b: B, n: nat)
    requires n <= |xs| == |tags| && Within(turn, n)
    ensures TaggedTurn(xs[..n], turn, tags[..n], b) == TaggedTurn(xs, turn, tags, b)
  {
    assert At(xs[..n], turn) == At(xs, turn);
  }

  /** Appending position `n` to an open turn that carries its tag, or opening a turn with it. */
  lemma TaggedTurnGrows<T, B>(xs: seq<T>, open: seq<nat>, tags: seq<B>, b: B)
    requires xs != [] && |xs| == |tags| && Within(open, |xs| - 1)
    requires open != [] ==> tags[open[0]] == Last(tags)
    ensures TaggedTurn(xs, open + [|xs| - 1], tags, b) ==
            TaggedTurn(xs, open, tags, b) + if Last(tags) == b then [Last(xs)] else []
  {
    assert At(xs, open + [|xs| - 1]) == At(xs, open) + [Last(xs)];
  }

  /** The scan in terms of lists: which turns are closed and which one is open after the last role. */
  lemma ScanFacts(roles: seq<Role>)
    requires roles != []
    ensures var closed, open := ClosedTurns(Front(roles)), OpenTurn(Front(roles));
            var n, joins := |roles| - 1, Glued(roles, |roles| - 1);
            && (joins ==> open != [] && ClosedTurns(roles) == closed && OpenTurn(roles) == open + [n])
            && (!joins ==> ClosedTurns(roles) == if open == [] then closed else closed + [open])
            && (!joins ==> OpenTurn(roles) == if roles[n].System? then [] else [n])
  {
    OpenTurnStep(roles);
    LastIsGlued(roles);
  }

  lemma {:induction false} PickByScan<T, B>(xs: seq<T>, roles: seq<Role>, tags: seq<B>, b: B)
    requires |xs| == |roles| && WholeTurns(roles, tags)
    requires forall i :: 0 <= i < |roles| && roles[i].System? ==> tags[i] != b
    requires TurnsWithin(ClosedTurns(roles), |xs|) && Within(OpenTurn(roles), |xs|)
    ensures Pick(xs, tags, b) == TaggedTurns(xs, ClosedTurns(roles), tags, b) + TaggedTurn(xs, OpenTurn(roles), tags, b)
  {
    if roles != [] {
      var n := |roles| - 1;
      WholeTurnsFront(roles, tags);
      TurnsAreWithin(Front(roles));
      PickByScan(Front(xs), Front(roles), Front(tags), b);
      OpenTurnUniform(Front(roles), Front(tags));
      ScanFacts(roles);
      PickScanStep(xs, ClosedTurns(Front(roles)), OpenTurn(Front(roles)), ClosedTurns(roles), OpenTurn(roles), tags, b,
                   Glued(roles, n), roles[n].System?);
    }
  }

  lemma PickScanStep<T, B>(xs: seq<T>, closed: seq<seq<nat>>, open: seq<nat>, closed': seq<seq<nat>>, open': seq<nat>,
                           tags: seq<B>, b: B, joins: bool, system: bool)
    requires xs != [] && |xs| == |tags|
    requires TurnsWithin(closed, |xs| - 1) && Within(open, |xs| - 1)
    requires TurnsWithin(closed', |xs|) && Within(open', |xs|)
    requires joins ==> open != [] && closed' == closed && open' == open + [|xs| - 1] && tags[open[0]] == Last(tags)
    requires !joins ==> closed' == if open == [] then closed else closed + [open]
    requires !joins ==> open' == if system then [] else [|xs| - 1]
    requires system ==> !joins && Last(tags) != b
    requires Pick(Front(xs), Front(tags), b) ==
             TaggedTurns(Front(xs), closed, Front(tags), b) + TaggedTurn(Front(xs), open, Front(tags), b)
    ensures Pick(xs, tags, b) == TaggedTurns(xs, closed', tags, b) + TaggedTurn(xs, open', tags, b)
  {
    var n := |xs| - 1;
    TaggedTurnsPrefix(xs, closed, tags, b, n);
    TaggedTurnPrefix(xs, open, tags, b, n);
    var before := Pick(Front(xs), Front(tags), b);
    var added := if Last(tags) == b then [Last(xs)] else [];
    assert before == TaggedTurns(xs, closed, tags, b) + TaggedTurn(xs, open, tags, b) by {
      assert xs[..n] == Front(xs) && tags[..n] == Front(tags);
    }
    assert Pick(xs, tags, b) == before + added by { PickStep(xs, tags, b); }
    if joins {
      TaggedTurnGrows(xs, open, tags, b);
      assert before + added == TaggedTurns(xs, closed, tags, b) + (TaggedTurn(xs, open, tags, b) + added);
    } else {
      assert before == TaggedTurns(xs, closed', tags, b) by {
        if open != [] {
          TaggedTurnsSnoc(xs, closed, open, tags, b);
        }
      }
      assert added == TaggedTurn(xs, open', tags, b) by {
        TaggedTurnGrows(xs, [], tags, b);
        assert [] + [n] == [n];
      }
    }
  }

  lemma PickByTurns<T, B>(xs: seq<T>, roles: seq<Role>, tags: seq<B>, b: B)
    requires |xs| == |roles| && WholeTurns(roles, tags)
    requires forall i :: 0 <= i < |roles| && roles[i].System? ==> tags[i] != b
    ensures TurnsWithin(TurnsOf(roles), |xs|)
    ensures Pick(xs, tags, b) == TaggedTurns(xs, TurnsOf(roles), tags, b)
  {
    TurnsAreWithin(roles);
    PickByScan(xs, roles, tags, b);
    if OpenTurn(roles) != [] {
      assert Front(TurnsOf(roles)) == ClosedTurns(roles) && Last(TurnsOf(roles)) == OpenTurn(roles);
    } else {
      assert TurnsOf(roles) == ClosedTurns(roles);
    }
  }

  // ----- Which messages a pass keeps

  function Min(x: int, y: int): int {
    if x < y then x else y
  }

  function TurnCosts(countTokens: Tokenizer, kept: seq<Message>, turns: seq<seq<nat>>): (costs: seq<int>)
    requires TurnsWithin(turns, |kept|)
    ensures |costs| == |turns|
  {
    seq(|turns|, i requires 0 <= i < |turns| => Sum(Costs(countTokens, At(kept, turns[i]))))
  }

  function Sizes(turns: seq<seq<nat>>): (sizes: seq<int>)
    ensures |sizes| == |turns|
  {
    seq(|turns|, i requires 0 <= i < |turns| => |turns[i]|)
  }

  /** What is left for turns once the summary and the pinned system messages are paid for. */
  function RestBudget(countTokens: Tokenizer, kept: seq<Message>, tokenBudget: int, summaryTokens: nat): int {
    SystemsAreWithin(Roles(kept));
    var pinned := Sum(Costs(countTokens, At(kept, SystemPositions(Roles(kept)))));
    AtLeastOne(AtLeastOne(tokenBudget - summaryTokens) - pinned)
  }

  /** The least number of non-system messages a pass must keep. */
  function KeepFloor(kept: seq<Message>, alwaysKeepRecent: int): int {
    Min(AtLeastOne(alwaysKeepRecent), AtLeastOne(|kept| - |SystemPositions(Roles(kept))|))
  }

  /** Token cost of each turn, and below it the number of messages of each turn. */
  function PassCosts(countTokens: Tokenizer, kept: seq<Message>): (costs: seq<int>)
    ensures |costs| == |TurnsOf(Roles(kept))|
  {
    TurnsAreWithin(Roles(kept));
    TurnCosts(countTokens, kept, TurnsOf(Roles(kept)))
  }

  function PassSizes(kept: seq<Message>): (sizes: seq<int>)
    ensures |sizes| == |TurnsOf(Roles(kept))|
  {
    Sizes(TurnsOf(Roles(kept)))
  }

  /** Index of the oldest turn the pass keeps. */
  function FirstTurnKept(countTokens: Tokenizer, kept: seq<Message>, tokenBudget: int, summaryTokens: nat,
                         alwaysKeepRecent: int): (k: nat)
    ensures k <= |TurnsOf(Roles(kept))|
  {
    GreedyStart(PassCosts(countTokens, kept), PassSizes(kept), RestBudget(countTokens, kept, tokenBudget, summaryTokens),
                KeepFloor(kept, alwaysKeepRecent), |TurnsOf(Roles(kept))|)
  }

  /** Tags a position true when it holds a system message or lies at or after turn `k`. */
  function KeptFrom(roles: seq<Role>, k: nat): (tags: seq<bool>)
    requires k <= |TurnsOf(roles)|
    ensures |tags| == |roles|
  {
    TurnsAreWithin(roles);
    var cut := if k < |TurnsOf(roles)| then TurnsOf(roles)[k][0] else |roles|;
    seq(|roles|, i requires 0 <= i < |roles| => roles[i].System? || i >= cut)
  }

  function Survives(countTokens: Tokenizer, kept: seq<Message>, tokenBudget: int, summaryTokens: nat,
                    alwaysKeepRecent: int): (tags: seq<bool>)
    ensures |tags| == |kept|
  {
    KeptFrom(Roles(kept), FirstTurnKept(countTokens, kept, tokenBudget, summaryTokens, alwaysKeepRecent))
  }

  // ----- Positions, turns and the cut

  lemma {:induction false} PositionsSplit(roles: seq<Role>)
    ensures forall i: nat :: i in SystemPositions(roles) <==> i < |roles| && roles[i].System?
    ensures forall i: nat :: i in BodyPositions(roles) <==> i < |roles| && !roles[i].System?
    ensures |SystemPositions(roles)| + |BodyPositions(roles)| == |roles|
  {
    if roles != [] {
      PositionsSplit(Front(roles));
      assert forall i :: 0 <= i < |roles| - 1 ==> Front(roles)[i] == roles[i];
    }
  }

  lemma {:induction false} FlattenMember<T>(xss: seq<seq<T>>, x: T)
    ensures x in Flatten(xss) <==> exists i :: 0 <= i < |xss| && x in xss[i]
  {
    if xss != [] {
      FlattenMember(Front(xss), x);
      assert forall i :: 0 <= i < |xss| - 1 ==> Front(xss)[i] == xss[i];
    }
  }

  lemma BodyHasTurn(roles: seq<Role>, i: nat)
    requires i < |roles| && !roles[i].System?
    ensures exists j :: 0 <= j < |TurnsOf(roles)| && i in TurnsOf(roles)[j]
  {
    TurnsTile(roles);
    PositionsSplit(roles);
    FlattenMember(TurnsOf(roles), i);
  }

  lemma TurnSpan(roles: seq<Role>, j: nat, k: nat, i: nat)
    requires j < |TurnsOf(roles)| && k < |TurnsOf(roles)| && i in TurnsOf(roles)[j]
    ensures TurnsOf(roles)[k] != [] && (i >= TurnsOf(roles)[k][0] <==> j >= k)
    ensures i < |roles|
  {
    var turns := TurnsOf(roles);
    TurnsAreRuns(roles);
    TurnsInOrder(roles);
    assert IsRun(roles, turns[j]) && IsRun(roles, turns[k]);
    assert turns[j][0] <= i <= Last(turns[j]);
  }

  /** A body position is kept by the cut at turn `k` exactly when its turn is turn `k` or a later one. */
  lemma TurnOfPosition(roles: seq<Role>, k: nat, i: nat)
    requires k <= |TurnsOf(roles)| && i < |roles|
    ensures KeptFrom(roles, k)[i] <==>
            roles[i].System? || exists j :: k <= j < |TurnsOf(roles)| && i in TurnsOf(roles)[j]
  {
    if !roles[i].System? {
      BodyHasTurn(roles, i);
      if k < |TurnsOf(roles)| {
        TurnsAreWithin(roles);
        forall j | 0 <= j < |TurnsOf(roles)| && i in TurnsOf(roles)[j]
          ensures i >= TurnsOf(roles)[k][0] <==> j >= k
        {
          TurnSpan(roles, j, k, i);
        }
      }
    }
  }

  lemma KeptFromIsWhole(roles: seq<Role>, k: nat)
    requires k <= |TurnsOf(roles)|
    ensures WholeTurns(roles, KeptFrom(roles, k))
    ensures SystemsTagged(roles, KeptFrom(roles, k), true)
  {
    TurnsAreRuns(roles);
    forall i | 0 < i < |roles| && Glued(roles, i) ensures KeptFrom(roles, k)[i] == KeptFrom(roles, k)[i - 1] {
      assert roles[..i] != [] && Front(roles[..i + 1]) == roles[..i];
      if k < |TurnsOf(roles)| {
        assert IsRun(roles, TurnsOf(roles)[k]);
      }
    }
  }

  /** The elements of some turns, laid end to end. */
  function Collect<T>(xs: seq<T>, turns: seq<seq<nat>>): seq<T>
    requires TurnsWithin(turns, |xs|)
  {
    if turns == [] then [] else Collect(xs, Front(turns)) + At(xs, Last(turns))
  }

  lemma {:induction false} CollectLength<T>(xs: seq<T>, turns: seq<seq<nat>>)
    requires TurnsWithin(turns, |xs|)
    ensures |Collect(xs, turns)| == Sum(Sizes(turns))
  {
    if turns != [] {
      CollectLength(xs, Front(turns));
      assert Front(Sizes(turns)) == Sizes(Front(turns));
    }
  }

  lemma {:induction false} TaggedTurnsBelow(xs: seq<Message>, turns: seq<seq<nat>>, tags: seq<bool>, k: nat)
    requires |xs| == |tags| && TurnsWithin(turns, |xs|) && k <= |turns|
    requires forall i :: 0 <= i < |turns| ==> (tags[turns[i][0]] <==> i >= k)
    ensures TaggedTurns(xs, turns, tags, false) == Collect(xs, turns[..k])
  {
    if turns == [] {
      assert turns[..k] == [];
    } else if k < |turns| {
      TaggedTurnsBelow(xs, Front(turns), tags, k);
      assert Front(turns)[..k] == turns[..k];
    } else {
      TaggedTurnsBelow(xs, Front(turns), tags, k - 1);
      assert Front(turns)[..k - 1] == Front(turns) && turns[..k] == turns;
    }
  }

  lemma TurnTags(roles: seq<Role>, k: nat, i: nat)
    requires k <= |TurnsOf(roles)| && i < |TurnsOf(roles)|
    ensures IsRun(roles, TurnsOf(roles)[i])
    ensures KeptFrom(roles, k)[TurnsOf(roles)[i][0]] <==> i >= k
  {
    var turns := TurnsOf(roles);
    TurnsAreRuns(roles);
    TurnsInOrder(roles);
    assert IsRun(roles, turns[i]);
    if k < |turns| {
      assert IsRun(roles, turns[k]);
    }
  }

  /** What a cut at turn `k` drops: the older turns, in order. */
  lemma DroppedTurns(kept: seq<Message>, k: nat)
    requires k <= |TurnsOf(Roles(kept))|
    ensures TurnsWithin(TurnsOf(Roles(kept)), |kept|)
    ensures Pick(kept, KeptFrom(Roles(kept), k), false) == Collect(kept, TurnsOf(Roles(kept))[..k])
    ensures |Pick(kept, KeptFrom(Roles(kept), k), false)| == Sum(Sizes(TurnsOf(Roles(kept)))[..k])
  {
    var roles := Roles(kept);
    KeptFromIsWhole(roles, k);
    PickByTurns(kept, roles, KeptFrom(roles, k), false);
    forall i | 0 <= i < |TurnsOf(roles)| ensures KeptFrom(roles, k)[TurnsOf(roles)[i][0]] <==> i >= k {
      TurnTags(roles, k, i);
    }
    TaggedTurnsBelow(kept, TurnsOf(roles), KeptFrom(roles, k), k);
    CollectLength(kept, TurnsOf(roles)[..k]);
    assert Sizes(TurnsOf(roles))[..k] == Sizes(TurnsOf(roles)[..k]);
  }

  // ----- The pass itself

  /** Walk the list once and keep the positions in `ids`. */
  method KeepPositions(kept: seq<Message>, ids: set<nat>, ghost tags: seq<bool>) returns (out: seq<Message>)
    requires |tags| == |kept|
    requires forall i :: 0 <= i < |kept| ==> (i in ids <==> tags[i])
    ensures out == Pick(kept, tags, true)
  {
    out := [];
    for i := 0 to |kept|
      invariant out == Pick(kept[..i], tags[..i], true)
    {
      assert Front(kept[..i + 1]) == kept[..i] && Front(tags[..i + 1]) == tags[..i];
      if i in ids {
        out := out + [kept[i]];
      }
    }
    assert kept[..|kept|] == kept && tags[..|kept|] == tags;
  }

  method CollectTurns(kept: seq<Message>, turns: seq<seq<nat>>) returns (out: seq<Message>)
    requires TurnsWithin(turns, |kept|)
    ensures out == Collect(kept, turns)
  {
    out := [];
    for i := 0 to |turns|
      invariant out == Collect(kept, turns[..i])
    {
      assert Front(turns[..i + 1]) == turns[..i] && Within(turns[i], |kept|);
      out := out + At(kept, turns[i]);
    }
    assert turns[..|turns|] == turns;
  }

  /** Selects turns from the newest backwards; `start` is the oldest one taken. */
  method SelectTurns(countTokens: Tokenizer, kept: seq<Message>, turns: seq<seq<nat>>, restBudget: int, minKeep: int)
    returns (start: nat)
    requires TurnsWithin(turns, |kept|)
    ensures start == GreedyStart(TurnCosts(countTokens, kept, turns), Sizes(turns), restBudget, minKeep, |turns|)
  {
    ghost var costs, sizes := TurnCosts(countTokens, kept, turns), Sizes(turns);
    var selected: seq<seq<nat>> := [];
    var total, count := 0, 0;
    start := |turns|;
    while start > 0
      invariant 0 <= start <= |turns|
      invariant |selected| == |turns| - start
      invariant total == Sum(costs[start..]) && count == Sum(sizes[start..])
      invariant GreedyStart(costs, sizes, restBudget, minKeep, |turns|) ==
                GreedyStart(costs, sizes, restBudget, minKeep, start)
    {
      assert Within(turns[start - 1], |kept|);
      var cost := Sum(Costs(countTokens, At(kept, turns[start - 1])));
      SumSuffix(costs, start - 1);
      SumSuffix(sizes, start - 1);
      if selected != [] && total + cost > restBudget && count >= minKeep {
        break;
      }
      selected := [turns[start - 1]] + selected;
      total := total + cost;
      count := count + |turns[start - 1]|;
      start := start - 1;
    }
  }

  /** Membership in the identity set the source builds is the cut at turn `k`. */
  lemma KeepIds(roles: seq<Role>, k: nat, ids: set<nat>)
    requires k <= |TurnsOf(roles)|
    requires ids == (set t, p | t in TurnsOf(roles)[k..] && p in t :: p) + (set p | p in SystemPositions(roles))
    ensures forall i :: 0 <= i < |roles| ==> (i in ids <==> KeptFrom(roles, k)[i])
  {
    var turns := TurnsOf(roles);
    PositionsSplit(roles);
    forall i | 0 <= i < |roles| ensures i in ids <==> KeptFrom(roles, k)[i] {
      TurnOfPosition(roles, k, i);
      if j :| k <= j < |turns| && i in turns[j] {
        assert turns[k..][j - k] == turns[j];
      }
    }
  }

  method SplitKeptByBudget(countTokens: Tokenizer, kept: seq<Message>, tokenBudget: int, summaryTokens: nat,
                           alwaysKeepRecent: int)
    returns (keptOut: seq<Message>, overflow: seq<Message>)
    ensures var tags := Survives(countTokens, kept, tokenBudget, summaryTokens, alwaysKeepRecent);
            keptOut == Pick(kept, tags, true) && overflow == Pick(kept, tags, false)
  {
    if kept == [] {
      return [], [];
    }
    var systems, turns := PartitionTurns(kept);
    TurnsAreWithin(Roles(kept));
    var restBudget := RestBudget(countTokens, kept, tokenBudget, summaryTokens);
    var minKeep := KeepFloor(kept, alwaysKeepRecent);
    var start := SelectTurns(countTokens, kept, turns, restBudget, minKeep);
    keptOut, overflow := SplitAt(kept, systems, turns, start);
  }

  /** Rebuild both lists from the selected turns: membership for the kept list, turn by turn for the overflow. */
  method SplitAt(kept: seq<Message>, systems: seq<nat>, turns: seq<seq<nat>>, start: nat)
    returns (keptOut: seq<Message>, overflow: seq<Message>)
    requires systems == SystemPositions(Roles(kept)) && turns == TurnsOf(Roles(kept)) && start <= |turns|
    ensures keptOut == Pick(kept, KeptFrom(Roles(kept), start), true)
    ensures overflow == Pick(kept, KeptFrom(Roles(kept), start), false)
  {
    var selected := turns[start..];
    var keepIds := (set t, p | t in selected && p in t :: p) + (set p | p in systems);
    KeepIds(Roles(kept), start, keepIds);
    keptOut := KeepPositions(kept, keepIds, KeptFrom(Roles(kept), start));
    DroppedTurns(kept, start);
    overflow := CollectTurns(kept, turns[..start]);
  }

  // ----- What a pass guarantees

  lemma {:induction false} SizesTotal(turns: seq<seq<nat>>)
    ensures Sum(Sizes(turns)) == |Flatten(turns)|
  {
    if turns != [] {
      SizesTotal(Front(turns));
      assert Front(Sizes(turns)) == Sizes(Front(turns));
    }
  }

  /**
   The law of one pass. Whole turns go, oldest first; the kept turns hold at least the floor of
   non-system messages unless everything is kept; the next older turn would not have fitted; and the kept
   turns exceed the remaining budget only when without the oldest of them they would be none or too few.
   */
  lemma PassLaw(countTokens: Tokenizer, kept: seq<Message>, tokenBudget: int, summaryTokens: nat, alwaysKeepRecent: int)
    ensures var costs, sizes := PassCosts(countTokens, kept), PassSizes(kept);
            var k := FirstTurnKept(countTokens, kept, tokenBudget, summaryTokens, alwaysKeepRecent);
            var rest := RestBudget(countTokens, kept, tokenBudget, summaryTokens);
            var floor := KeepFloor(kept, alwaysKeepRecent);
            && (costs != [] ==> k < |costs| && Sum(sizes[k..]) >= floor)
            && (k > 0 ==> Sum(costs[k..]) + costs[k - 1] > rest)
            && (k < |costs| && Sum(costs[k..]) > rest ==> k == |costs| - 1 || Sum(sizes[k + 1..]) < floor)
  {
    var costs, sizes := PassCosts(countTokens, kept), PassSizes(kept);
    var rest := RestBudget(countTokens, kept, tokenBudget, summaryTokens);
    GreedyLaw(costs, sizes, rest, KeepFloor(kept, alwaysKeepRecent));
    FloorIsReachable(kept, alwaysKeepRecent);
    LawWithFloor(costs, sizes, rest, KeepFloor(kept, alwaysKeepRecent),
                 FirstTurnKept(countTokens, kept, tokenBudget, summaryTokens, alwaysKeepRecent));
  }

  /** The greedy law when everything together reaches the floor. */
  lemma LawWithFloor(costs: seq<int>, sizes: seq<int>, limit: int, floor: int, k: nat)
    requires k <= |costs| == |sizes| && Lawful(costs, sizes, limit, floor, k) && (costs != [] ==> Sum(sizes) >= floor)
    ensures costs != [] ==> k < |costs| && Sum(sizes[k..]) >= floor
    ensures k > 0 ==> Sum(costs[k..]) + costs[k - 1] > limit
    ensures k < |costs| && Sum(costs[k..]) > limit ==> k == |costs| - 1 || Sum(sizes[k + 1..]) < floor
  {
    assert sizes[0..] == sizes;
  }

  lemma FloorIsReachable(kept: seq<Message>, alwaysKeepRecent: int)
    ensures TurnsOf(Roles(kept)) != [] ==> Sum(PassSizes(kept)) >= KeepFloor(kept, alwaysKeepRecent)
  {
    var roles := Roles(kept);
    SizesTotal(TurnsOf(roles));
    TurnsTile(roles);
    PositionsSplit(roles);
    if TurnsOf(roles) != [] {
      SomeTurnSomeBody(roles);
    }
  }

  lemma SomeTurnSomeBody(roles: seq<Role>)
    requires TurnsOf(roles) != []
    ensures |BodyPositions(roles)| > 0
  {
    TurnsTile(roles);
    assert Last(TurnsOf(roles)) in TurnsOf(roles);
  }

  lemma SumCut(xs: seq<int>, k: nat)
    requires k <= |xs|
    ensures Sum(xs) == Sum(xs[..k]) + Sum(xs[k..])
  {
    assert xs == xs[..k] + xs[k..];
    SumAppend(xs[..k], xs[k..]);
  }

  lemma SizesAreBodies(roles: seq<Role>)
    ensures Sum(Sizes(TurnsOf(roles))) == |BodyPositions(roles)|
    ensures |SystemPositions(roles)| + |BodyPositions(roles)| == |roles|
  {
    SizesTotal(TurnsOf(roles));
    TurnsTile(roles);
    PositionsSplit(roles);
  }

  /** The kept turns hold the bodies that the cut does not drop. */
  lemma KeptBodies(kept: seq<Message>, k: nat)
    requires k <= |TurnsOf(Roles(kept))|
    ensures Sum(PassSizes(kept)[k..]) + |Pick(kept, KeptFrom(Roles(kept), k), false)| +
            |SystemPositions(Roles(kept))| == |kept|
  {
    DroppedTurns(kept, k);
    SizesAreBodies(Roles(kept));
    SumCut(PassSizes(kept), k);
  }

  /** The newest `alwaysKeepRecent` entries of the list survive the pass, whatever the costs and the budget. */
  lemma RecentSurvive(countTokens: Tokenizer, kept: seq<Message>, tokenBudget: int, summaryTokens: nat,
                      alwaysKeepRecent: int, i: nat)
    requires i < |kept| && |kept| - i <= AtLeastOne(alwaysKeepRecent)
    ensures Survives(countTokens, kept, tokenBudget, summaryTokens, alwaysKeepRecent)[i]
  {
    var roles := Roles(kept);
    var k := FirstTurnKept(countTokens, kept, tokenBudget, summaryTokens, alwaysKeepRecent);
    var tags := KeptFrom(roles, k);
    if !tags[i] {
      PassLaw(countTokens, kept, tokenBudget, summaryTokens, alwaysKeepRecent);
      KeptBodies(kept, k);
      BodiesBefore(roles, tags, i);
      PickLength(kept, roles, tags, false);
      PickPrefix(kept, tags, false, i);
      if TurnsOf(roles) == [] {
        TurnsTile(roles);
        PositionsSplit(roles);
      }
      assert false;
    }
  }

  /** If position `i` is dropped by a cut, the dropped ones are all the bodies up to `i` and maybe more. */
  lemma {:induction false} BodiesBefore(roles: seq<Role>, tags: seq<bool>, i: nat)
    requires i < |roles| == |tags| && !tags[i]
    requires forall j :: 0 <= j <= i && !roles[j].System? ==> !tags[j]
    ensures |Pick(roles, tags, false)| + |SystemPositions(roles)| >= i + 1
  {
    if i < |roles| - 1 {
      BodiesBefore(Front(roles), Front(tags), i);
    } else {
      AllBodies(roles, tags);
    }
  }

  lemma {:induction false} AllBodies(roles: seq<Role>, tags: seq<bool>)
    requires |tags| == |roles|
    requires forall j :: 0 <= j < |roles| && !roles[j].System? ==> !tags[j]
    ensures |Pick(roles, tags, false)| + |SystemPositions(roles)| >= |roles|
  {
    if roles != [] {
      AllBodies(Front(roles), Front(tags));
    }
  }
}
