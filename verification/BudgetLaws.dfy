/** What one budget pass promises, in the numbers a caller sees: tokens, messages and the two settings. */
module BudgetLaws {
  import opened Messages
  import opened Sequences
  import opened Turns
  import opened TurnStability
  import opened Window
  import opened BudgetTrim

  // ----- The list left by a cut, and its cost

  /** What stays when the oldest kept turn is turn `k`: every system message and the turns from `k` on. */
  function LeftBy(kept: seq<Message>, k: nat): (left: seq<Message>)
    requires k <= |TurnsOf(Roles(kept))|
  {
    Pick(kept, KeptFrom(Roles(kept), k), true)
  }

  function Tokens(countTokens: Tokenizer, ms: seq<Message>): nat {
    TextTokens(countTokens, ms) + 4 * |ms|
  }

  /** How many messages are not system messages. */
  function Bodies(ms: seq<Message>): nat {
    if ms == [] then 0 else Bodies(Front(ms)) + if Last(ms).role.System? then 0 else 1
  }

  lemma {:induction false} TokensAppend(countTokens: Tokenizer, ms: seq<Message>, more: seq<Message>)
    ensures Tokens(countTokens, ms + more) == Tokens(countTokens, ms) + Tokens(countTokens, more)
  {
    if more == [] {
      assert ms + more == ms;
    } else {
      TokensAppend(countTokens, ms, Front(more));
      assert Front(ms + more) == ms + Front(more);
    }
  }

  /** What a mask keeps and what it drops together cost what the list costs. */
  lemma {:induction false} TokensSplit(countTokens: Tokenizer, ms: seq<Message>, mask: seq<bool>)
    requires |ms| == |mask|
    ensures Tokens(countTokens, Pick(ms, mask, true)) + Tokens(countTokens, Pick(ms, mask, false)) ==
            Tokens(countTokens, ms)
    ensures Bodies(Pick(ms, mask, true)) + Bodies(Pick(ms, mask, false)) == Bodies(ms)
  {
    if ms != [] {
      TokensSplit(countTokens, Front(ms), Front(mask));
      PickedLast(countTokens, Pick(Front(ms), Front(mask), Last(mask)), Last(ms));
      PickStep(ms, mask, true);
      PickStep(ms, mask, false);
    }
  }

  lemma PickedLast(countTokens: Tokenizer, ms: seq<Message>, m: Message)
    ensures Tokens(countTokens, ms + [m]) == Tokens(countTokens, ms) + countTokens(m.text) + 4
    ensures Bodies(ms + [m]) == Bodies(ms) + if m.role.System? then 0 else 1
  {
    assert Front(ms + [m]) == ms;
  }

  lemma {:induction false} CollectTokens(countTokens: Tokenizer, ms: seq<Message>, turns: seq<seq<nat>>)
    requires TurnsWithin(turns, |ms|)
    ensures Tokens(countTokens, Collect(ms, turns)) == Sum(TurnCosts(countTokens, ms, turns))
  {
    if turns != [] {
      CollectTokens(countTokens, ms, Front(turns));
      assert Within(Last(turns), |ms|);
      assert Front(TurnCosts(countTokens, ms, turns)) == TurnCosts(countTokens, ms, Front(turns));
      TokensAppend(countTokens, Collect(ms, Front(turns)), At(ms, Last(turns)));
      CostIsTextsAndFours(countTokens, At(ms, Last(turns)));
    }
  }

  lemma {:induction false} SystemsPicked(ms: seq<Message>, mask: seq<bool>)
    requires |ms| == |mask| && forall i :: 0 <= i < |ms| ==> mask[i] == ms[i].role.System?
    ensures Within(SystemPositions(Roles(ms)), |ms|)
    ensures Pick(ms, mask, true) == At(ms, SystemPositions(Roles(ms)))
  {
    SystemsAreWithin(Roles(ms));
    if ms != [] {
      SystemsPicked(Front(ms), Front(mask));
      assert Front(Roles(ms)) == Roles(Front(ms));
    }
  }

  lemma {:induction false} BodiesAreCounted(ms: seq<Message>)
    ensures Bodies(ms) == |ms| - |SystemPositions(Roles(ms))|
  {
    if ms != [] {
      BodiesAreCounted(Front(ms));
      assert Front(Roles(ms)) == Roles(Front(ms));
    }
  }

  /** Messages the pass pays for first. */
  function Pinned(kept: seq<Message>): seq<Message> {
    LeftBy(kept, |TurnsOf(Roles(kept))|)
  }

  lemma PinnedCost(countTokens: Tokenizer, kept: seq<Message>)
    ensures Within(SystemPositions(Roles(kept)), |kept|)
    ensures Sum(Costs(countTokens, At(kept, SystemPositions(Roles(kept))))) == Tokens(countTokens, Pinned(kept))
  {
    SystemsPicked(kept, KeptFrom(Roles(kept), |TurnsOf(Roles(kept))|));
    CostIsTextsAndFours(countTokens, Pinned(kept));
  }

  /** A cut drops the turns before it: their cost is missing, and their messages. */
  lemma CutDropsCost(countTokens: Tokenizer, kept: seq<Message>, k: nat)
    requires k <= |TurnsOf(Roles(kept))|
    ensures Tokens(countTokens, LeftBy(kept, k)) + Sum(PassCosts(countTokens, kept)[..k]) == Tokens(countTokens, kept)
  {
    var turns := TurnsOf(Roles(kept));
    TokensSplit(countTokens, kept, KeptFrom(Roles(kept), k));
    DroppedTurns(kept, k);
    CollectTokens(countTokens, kept, turns[..k]);
    CostsOfPrefix(countTokens, kept, turns, k);
  }

  lemma CostsOfPrefix(countTokens: Tokenizer, ms: seq<Message>, turns: seq<seq<nat>>, k: nat)
    requires TurnsWithin(turns, |ms|) && k <= |turns|
    ensures TurnCosts(countTokens, ms, turns)[..k] == TurnCosts(countTokens, ms, turns[..k])
  {}

  lemma CutDropsBodies(kept: seq<Message>, k: nat)
    requires k <= |TurnsOf(Roles(kept))|
    ensures Bodies(LeftBy(kept, k)) + Sum(PassSizes(kept)[..k]) == Bodies(kept)
  {
    var mask := KeptFrom(Roles(kept), k);
    TokensSplit(_ => 0, kept, mask);
    DroppedTurns(kept, k);
    DroppedAreBodies(kept, mask);
  }

  lemma {:induction false} DroppedAreBodies(ms: seq<Message>, mask: seq<bool>)
    requires |ms| == |mask| && forall i :: 0 <= i < |ms| && ms[i].role.System? ==> mask[i]
    ensures Bodies(Pick(ms, mask, false)) == |Pick(ms, mask, false)|
  {
    if ms != [] {
      DroppedAreBodies(Front(ms), Front(mask));
      PickStep(ms, mask, false);
      PickedLast(_ => 0, Pick(Front(ms), Front(mask), false), Last(ms));
    }
  }

  lemma CutKeepsCost(countTokens: Tokenizer, kept: seq<Message>, k: nat)
    requires k <= |TurnsOf(Roles(kept))|
    ensures Tokens(countTokens, LeftBy(kept, k)) ==
            Tokens(countTokens, Pinned(kept)) + Sum(PassCosts(countTokens, kept)[k..])
  {
    var costs := PassCosts(countTokens, kept);
    CutDropsCost(countTokens, kept, k);
    CutDropsCost(countTokens, kept, |costs|);
    assert costs[..|costs|] == costs;
    SumCut(costs, k);
  }

  lemma CutKeepsBodies(kept: seq<Message>, k: nat)
    requires k <= |TurnsOf(Roles(kept))|
    ensures Bodies(LeftBy(kept, k)) == Sum(PassSizes(kept)[k..])
  {
    CutDropsBodies(kept, k);
    SumCut(PassSizes(kept), k);
    SizesAreBodies(Roles(kept));
    BodiesAreCounted(kept);
  }

  // ----- The law

  /**
   The cut at turn `k` is allowed: while there are turns it keeps at least one, and at least
   min(max(1, recent), all) non-system messages; with the next older turn, kept messages and summary would
   exceed the budget; and they exceed it as they are only if without the oldest kept turn none or too few
   would be left.
   */
  ghost predicate Allowed(countTokens: Tokenizer, kept: seq<Message>, tokenBudget: int, summaryTokens: nat,
                          alwaysKeepRecent: int, k: nat)
    requires k <= |TurnsOf(Roles(kept))|
  {
    var turns, floor := |TurnsOf(Roles(kept))|, LeastKept(kept, alwaysKeepRecent);
    && (turns > 0 ==> k < turns && Bodies(LeftBy(kept, k)) >= floor)
    && (k > 0 ==> Tokens(countTokens, LeftBy(kept, k - 1)) + summaryTokens > tokenBudget)
    && (Tokens(countTokens, LeftBy(kept, k)) + summaryTokens <= tokenBudget || k + 1 >= turns ||
        Bodies(LeftBy(kept, k + 1)) < floor)
  }

  function LeastKept(kept: seq<Message>, alwaysKeepRecent: int): nat {
    var wanted := if alwaysKeepRecent < 1 then 1 else alwaysKeepRecent;
    if wanted < Bodies(kept) then wanted else Bodies(kept)
  }

  lemma TokensAtLeastFours(countTokens: Tokenizer, kept: seq<Message>, i: nat)
    requires i < |TurnsOf(Roles(kept))|
    ensures PassCosts(countTokens, kept)[i] >= 4 && PassSizes(kept)[i] >= 1
  {
    TurnsAreWithin(Roles(kept));
    CostIsTextsAndFours(countTokens, At(kept, TurnsOf(Roles(kept))[i]));
  }

  lemma PassIsNonNegative(countTokens: Tokenizer, kept: seq<Message>)
    ensures NonNegative(PassCosts(countTokens, kept)) && NonNegative(PassSizes(kept))
  {
    forall i | 0 <= i < |TurnsOf(Roles(kept))| ensures PassCosts(countTokens, kept)[i] >= 4 && PassSizes(kept)[i] >= 1 {
      TokensAtLeastFours(countTokens, kept, i);
    }
  }

  /** The law on lists of numbers: `pinned` and `summary` are paid first, and every turn costs at least four. */
  ghost predicate AllowedNumbers(costs: seq<int>, sizes: seq<int>, budget: int, pinned: nat, summary: nat, floor: int, k: nat)
    requires k <= |costs| == |sizes|
  {
    && (costs != [] ==> k < |costs| && Sum(sizes[k..]) >= floor)
    && (k > 0 ==> pinned + Sum(costs[k - 1..]) + summary > budget)
    && (pinned + Sum(costs[k..]) + summary <= budget || k + 1 >= |costs| || Sum(sizes[k + 1..]) < floor)
  }

  lemma AllowedIsLawful(costs: seq<int>, sizes: seq<int>, budget: int, pinned: nat, summary: nat, floor: int, k: nat)
    requires k <= |costs| == |sizes| && NonNegative(costs) && NonNegative(sizes)
    requires forall i :: 0 <= i < |costs| ==> costs[i] >= 4
    requires costs != [] ==> Sum(sizes) >= floor
    ensures AllowedNumbers(costs, sizes, budget, pinned, summary, floor, k) <==>
            Lawful(costs, sizes, AtLeastOne(AtLeastOne(budget - summary) - pinned), floor, k)
  {
    assert sizes[0..] == sizes;
    if k < |costs| {
      SumSuffix(costs, k);
      SumMono(costs, k + 1, |costs|);
    }
    if k > 0 {
      SumSuffix(costs, k - 1);
      SumMono(costs, k, |costs|);
    }
  }

  /** A pass makes the allowed cut, and there is no other: nothing else about budget, summary and floor matters. */
  lemma OnlyCutAllowed(countTokens: Tokenizer, kept: seq<Message>, tokenBudget: int, summaryTokens: nat,
                       alwaysKeepRecent: int, k: nat)
    requires k <= |TurnsOf(Roles(kept))|
    ensures Allowed(countTokens, kept, tokenBudget, summaryTokens, alwaysKeepRecent, k) <==>
            k == FirstTurnKept(countTokens, kept, tokenBudget, summaryTokens, alwaysKeepRecent)
  {
    var costs, sizes := PassCosts(countTokens, kept), PassSizes(kept);
    var floor := KeepFloor(kept, alwaysKeepRecent);
    var pinned := Tokens(countTokens, Pinned(kept));
    PassIsNonNegative(countTokens, kept);
    FloorIsReachable(kept, alwaysKeepRecent);
    PinnedCost(countTokens, kept);
    AllowedInNumbers(countTokens, kept, tokenBudget, summaryTokens, alwaysKeepRecent, k);
    forall i | 0 <= i < |costs| ensures costs[i] >= 4 {
      TokensAtLeastFours(countTokens, kept, i);
    }
    AllowedIsLawful(costs, sizes, tokenBudget, pinned, summaryTokens, floor, k);
    LawfulIsStart(costs, sizes, RestBudget(countTokens, kept, tokenBudget, summaryTokens), floor, k);
  }

  lemma AllowedInNumbers(countTokens: Tokenizer, kept: seq<Message>, tokenBudget: int, summaryTokens: nat,
                         alwaysKeepRecent: int, k: nat)
    requires k <= |TurnsOf(Roles(kept))|
    ensures Allowed(countTokens, kept, tokenBudget, summaryTokens, alwaysKeepRecent, k) <==>
            AllowedNumbers(PassCosts(countTokens, kept), PassSizes(kept), tokenBudget,
                           Tokens(countTokens, Pinned(kept)), summaryTokens, KeepFloor(kept, alwaysKeepRecent), k)
  {
    FloorInNumbers(kept, alwaysKeepRecent);
    CutKeepsCost(countTokens, kept, k);
    CutKeepsBodies(kept, k);
    NeighbourCuts(countTokens, kept, k);
  }

  lemma NeighbourCuts(countTokens: Tokenizer, kept: seq<Message>, k: nat)
    requires k <= |TurnsOf(Roles(kept))|
    ensures k > 0 ==> Tokens(countTokens, LeftBy(kept, k - 1)) ==
                      Tokens(countTokens, Pinned(kept)) + Sum(PassCosts(countTokens, kept)[k - 1..])
    ensures k < |TurnsOf(Roles(kept))| ==> Bodies(LeftBy(kept, k + 1)) == Sum(PassSizes(kept)[k + 1..])
  {
    if k > 0 {
      CutKeepsCost(countTokens, kept, k - 1);
    }
    if k < |TurnsOf(Roles(kept))| {
      CutKeepsBodies(kept, k + 1);
    }
  }

  lemma FloorInNumbers(kept: seq<Message>, alwaysKeepRecent: int)
    ensures TurnsOf(Roles(kept)) != [] ==> LeastKept(kept, alwaysKeepRecent) == KeepFloor(kept, alwaysKeepRecent)
  {
    BodiesAreCounted(kept);
    SizesAreBodies(Roles(kept));
    if TurnsOf(Roles(kept)) != [] {
      SomeTurnSomeBody(Roles(kept));
    }
  }

  /**
   What both lists of a pass are: the list left by the one allowed cut, and the turns before it. So messages
   kept and summary stay within the budget unless only the newest turn is kept or one turn fewer would leave
   too few, and no older turn could have been kept as well.
   */
  lemma PassInNumbers(countTokens: Tokenizer, kept: seq<Message>, tokenBudget: int, summaryTokens: nat,
                      alwaysKeepRecent: int)
    ensures var mask := Survives(countTokens, kept, tokenBudget, summaryTokens, alwaysKeepRecent);
            exists k: nat ::
              && k <= |TurnsOf(Roles(kept))| && TurnsWithin(TurnsOf(Roles(kept)), |kept|)
              && Allowed(countTokens, kept, tokenBudget, summaryTokens, alwaysKeepRecent, k)
              && Pick(kept, mask, true) == LeftBy(kept, k)
              && Pick(kept, mask, false) == Collect(kept, TurnsOf(Roles(kept))[..k])
  {
    var k := FirstTurnKept(countTokens, kept, tokenBudget, summaryTokens, alwaysKeepRecent);
    OnlyCutAllowed(countTokens, kept, tokenBudget, summaryTokens, alwaysKeepRecent, k);
    DroppedTurns(kept, k);
  }
}
