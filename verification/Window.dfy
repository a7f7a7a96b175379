/**
 The token window: take items from the newest backwards until the budget is spent, but never fewer than
 a floor. The same rule selects messages for a prompt and whole turns for the stored history.
 */
module Window {
  import opened Messages
  import opened Sequences

  /** Estimated tokens of a text; the tokenizer itself is not modelled. */
  type Tokenizer = string -> nat

  const MESSAGE_TOKEN_OVERHEAD := 4

  function MessageTokens(countTokens: Tokenizer, m: Message): nat {
    countTokens(m.text) + MESSAGE_TOKEN_OVERHEAD
  }

  /** With items `k..` selected, would the scan refuse item `k - 1`? */
  predicate Refuses(costs: seq<int>, sizes: seq<int>, limit: int, floor: int, k: nat)
    requires 0 < k <= |costs| == |sizes|
  {
    k < |costs| && Sum(costs[k..]) + costs[k - 1] > limit && Sum(sizes[k..]) >= floor
  }

  /** First selected item when the scan goes on from having selected items `k..`. */
  function GreedyStart(costs: seq<int>, sizes: seq<int>, limit: int, floor: int, k: nat): (start: nat)
    requires k <= |costs| == |sizes|
    ensures start <= k
  {
    if k == 0 then 0
    else if Refuses(costs, sizes, limit, floor, k) then k
    else GreedyStart(costs, sizes, limit, floor, k - 1)
  }

  lemma SumSuffix(xs: seq<int>, k: nat)
    requires k < |xs|
    ensures Sum(xs[k..]) == xs[k] + Sum(xs[k + 1..])
  {
    assert xs[k..] == [xs[k]] + xs[k + 1..];
    SumAppend([xs[k]], xs[k + 1..]);
    assert Front([xs[k]]) == [];
  }

  lemma {:induction false} GreedySteps(costs: seq<int>, sizes: seq<int>, limit: int, floor: int, k: nat)
    requires k <= |costs| == |sizes|
    ensures var s := GreedyStart(costs, sizes, limit, floor, k);
            && (s > 0 ==> Refuses(costs, sizes, limit, floor, s))
            && (forall j :: s < j <= k ==> !Refuses(costs, sizes, limit, floor, j))
  {
    if k > 0 && !Refuses(costs, sizes, limit, floor, k) {
      GreedySteps(costs, sizes, limit, floor, k - 1);
    }
  }

  /** What the law says of a start. */
  ghost predicate Lawful(costs: seq<int>, sizes: seq<int>, limit: int, floor: int, s: nat)
    requires s <= |costs| == |sizes|
  {
    && (costs != [] ==> s < |costs|)
    && (Sum(sizes[s..]) >= floor || s == 0)
    && (s > 0 ==> Sum(costs[s..]) + costs[s - 1] > limit)
    && (Sum(costs[s..]) > limit && s < |costs| ==> s == |costs| - 1 || Sum(sizes[s + 1..]) < floor)
  }

  /**
   The greedy-suffix law. The newest item is always taken; the floor is reached whenever there is enough
   to reach it; the next older item would not have fitted; and the budget is exceeded only when the
   selection without its oldest item would be empty or below the floor.
   */
  lemma GreedyLaw(costs: seq<int>, sizes: seq<int>, limit: int, floor: int)
    requires |costs| == |sizes|
    ensures Lawful(costs, sizes, limit, floor, GreedyStart(costs, sizes, limit, floor, |costs|))
  {
    var s := GreedyStart(costs, sizes, limit, floor, |costs|);
    GreedySteps(costs, sizes, limit, floor, |costs|);
    if s + 1 < |costs| {
      SumSuffix(costs, s);
      assert !Refuses(costs, sizes, limit, floor, s + 1);
    }
  }

  ghost predicate NonNegative(xs: seq<int>) {
    forall i :: 0 <= i < |xs| ==> xs[i] >= 0
  }

  /** A longer suffix weighs no less. */
  lemma {:induction false} SumMono(xs: seq<int>, i: nat, j: nat)
    requires NonNegative(xs) && i <= j <= |xs|
    ensures Sum(xs[j..]) <= Sum(xs[i..])
    decreases j - i
  {
    if i < j {
      SumMono(xs, i + 1, j);
      SumSuffix(xs, i);
    }
  }

  /** The law alone determines the selection: no two starts obey it. */
  lemma NotBothLawful(costs: seq<int>, sizes: seq<int>, limit: int, floor: int, s: nat, t: nat)
    requires s < t <= |costs| == |sizes| && NonNegative(costs) && NonNegative(sizes)
    ensures !(Lawful(costs, sizes, limit, floor, s) && Lawful(costs, sizes, limit, floor, t))
  {
    SumMono(costs, s, t - 1);
    SumSuffix(costs, t - 1);
    SumMono(sizes, s + 1, t);
  }

  /** With no negative cost or size the law leaves one choice: what obeys it is what the scan selects. */
  lemma GreedyIsUnique(costs: seq<int>, sizes: seq<int>, limit: int, floor: int, s: nat)
    requires s <= |costs| == |sizes| && NonNegative(costs) && NonNegative(sizes)
    requires Lawful(costs, sizes, limit, floor, s)
    ensures s == GreedyStart(costs, sizes, limit, floor, |costs|)
  {
    var t := GreedyStart(costs, sizes, limit, floor, |costs|);
    GreedyLaw(costs, sizes, limit, floor);
    if s < t {
      NotBothLawful(costs, sizes, limit, floor, s, t);
    } else if t < s {
      NotBothLawful(costs, sizes, limit, floor, t, s);
    }
  }

  // ----- Selecting messages for a prompt

  function Costs(countTokens: Tokenizer, ms: seq<Message>): (costs: seq<int>)
    ensures |costs| == |ms|
  {
    seq(|ms|, i requires 0 <= i < |ms| => MessageTokens(countTokens, ms[i]))
  }

  /** Estimated tokens of all texts, without the overhead of each message. */
  function TextTokens(countTokens: Tokenizer, ms: seq<Message>): nat {
    if ms == [] then 0 else TextTokens(countTokens, Front(ms)) + countTokens(Last(ms).text)
  }

  /** A list costs its texts and four tokens for each message. */
  lemma {:induction false} CostIsTextsAndFours(countTokens: Tokenizer, ms: seq<Message>)
    ensures Sum(Costs(countTokens, ms)) == TextTokens(countTokens, ms) + 4 * |ms|
  {
    if ms != [] {
      CostIsTextsAndFours(countTokens, Front(ms));
      assert Front(Costs(countTokens, ms)) == Costs(countTokens, Front(ms));
    }
  }

  function Ones(n: nat): seq<int> {
    seq(n, _ => 1)
  }

  lemma {:induction false} SumOfOnes(n: nat)
    ensures Sum(Ones(n)) == n
  {
    if n > 0 {
      assert Front(Ones(n)) == Ones(n - 1);
      SumOfOnes(n - 1);
    }
  }

  function AtLeastOne(x: int): int {
    if x < 1 then 1 else x
  }

  /** How many of the oldest messages fall out of the window. */
  function WindowStart(countTokens: Tokenizer, ms: seq<Message>, tokenBudget: int, minKeep: int): (start: nat)
    ensures start <= |ms|
  {
    GreedyStart(Costs(countTokens, ms), Ones(|ms|), AtLeastOne(tokenBudget), AtLeastOne(minKeep), |ms|)
  }

  /** Refusing a single message, in the terms the loop keeps: a running total and a count. */
  lemma RefusesMessage(costs: seq<int>, limit: int, floor: int, k: nat)
    requires 0 < k <= |costs|
    ensures Refuses(costs, Ones(|costs|), limit, floor, k) <==>
            k < |costs| && Sum(costs[k..]) + costs[k - 1] > limit && |costs| - k >= floor
    ensures Sum(costs[k - 1..]) == costs[k - 1] + Sum(costs[k..])
  {
    OnesSuffix(|costs|, k);
    SumSuffix(costs, k - 1);
  }

  function Reversed<T>(xs: seq<T>): (ys: seq<T>)
    ensures |ys| == |xs|
  {
    seq(|xs|, k requires 0 <= k < |xs| => xs[|xs| - 1 - k])
  }

  lemma ReversedAppend<T>(xs: seq<T>, x: T)
    ensures Reversed(xs + [x]) == [x] + Reversed(xs)
  {}

  method SelectMessagesByTokens(countTokens: Tokenizer, messages: seq<Message>, tokenBudget: int, minKeep: int)
    returns (selected: seq<Message>)
    ensures selected == messages[WindowStart(countTokens, messages, tokenBudget, minKeep)..]
  {
    var budget, keep := AtLeastOne(tokenBudget), AtLeastOne(minKeep);
    ghost var costs, ones := Costs(countTokens, messages), Ones(|messages|);
    var reversed: seq<Message> := [];
    var total := 0;
    var i := |messages|;
    while i > 0
      invariant 0 <= i <= |messages|
      invariant Reversed(reversed) == messages[i..] && |reversed| == |messages| - i
      invariant total == Sum(costs[i..])
      invariant WindowStart(countTokens, messages, tokenBudget, minKeep) == GreedyStart(costs, ones, budget, keep, i)
    {
      var cost := MessageTokens(countTokens, messages[i - 1]);
      RefusesMessage(costs, budget, keep, i);
      if reversed != [] && total + cost > budget && |reversed| >= keep {
        break;
      }
      ReversedAppend(reversed, messages[i - 1]);
      assert messages[i - 1..] == [messages[i - 1]] + messages[i..];
      reversed := reversed + [messages[i - 1]];
      total := total + cost;
      i := i - 1;
    }
    selected := Reversed(reversed);
  }

  method OverflowMessages(countTokens: Tokenizer, messages: seq<Message>, tokenBudget: int, minKeep: int)
    returns (overflow: seq<Message>)
    ensures overflow == messages[..WindowStart(countTokens, messages, tokenBudget, minKeep)]
  {
    var selected := SelectMessagesByTokens(countTokens, messages, tokenBudget, minKeep);
    if |selected| >= |messages| {
      return [];
    }
    overflow := messages[..|messages| - |selected|];
  }

  /**
   What the prompt window promises: overflow and selection put together are the history; at least
   `minKeep` messages survive (or all of them); and the selection is over budget only by being at that floor.
   */
  lemma WindowLaw(countTokens: Tokenizer, ms: seq<Message>, tokenBudget: int, minKeep: int)
    ensures var s := WindowStart(countTokens, ms, tokenBudget, minKeep);
            var costs := Costs(countTokens, ms);
            && ms[..s] + ms[s..] == ms
            && (|ms| - s >= AtLeastOne(minKeep) || s == 0)
            && (s > 0 ==> Sum(costs[s - 1..]) > AtLeastOne(tokenBudget))
            && (Sum(costs[s..]) > AtLeastOne(tokenBudget) ==> |ms| - s <= AtLeastOne(minKeep))
  {
    var s := WindowStart(countTokens, ms, tokenBudget, minKeep);
    var costs := Costs(countTokens, ms);
    GreedyLaw(costs, Ones(|ms|), AtLeastOne(tokenBudget), AtLeastOne(minKeep));
    OnesSuffix(|ms|, s);
    if s > 0 {
      SumSuffix(costs, s - 1);
    }
    if s < |ms| {
      OnesSuffix(|ms|, s + 1);
    }
  }

  /**
   The same in the numbers a caller sees. With `budget` and `keep` raised to one: at least `keep` messages
   survive or all do; one more would not have fitted; one fewer would be needed only below the floor; and no
   other cut of the history has these properties.
   */
  lemma WindowInNumbers(countTokens: Tokenizer, ms: seq<Message>, tokenBudget: int, minKeep: int, s: nat)
    requires s <= |ms|
    ensures s == WindowStart(countTokens, ms, tokenBudget, minKeep) <==>
            var budget, keep := if tokenBudget < 1 then 1 else tokenBudget, if minKeep < 1 then 1 else minKeep;
            && (|ms| - s >= keep || s == 0)
            && (s > 0 ==> TextTokens(countTokens, ms[s - 1..]) + 4 * (|ms| - s + 1) > budget)
            && (TextTokens(countTokens, ms[s..]) + 4 * (|ms| - s) > budget ==> |ms| - s <= keep)
  {
    var costs, ones := Costs(countTokens, ms), Ones(|ms|);
    var limit, floor := AtLeastOne(tokenBudget), AtLeastOne(minKeep);
    SuffixCost(countTokens, ms, s);
    OnesSuffix(|ms|, s);
    if s > 0 {
      SuffixCost(countTokens, ms, s - 1);
      SumSuffix(costs, s - 1);
    }
    if s < |ms| {
      OnesSuffix(|ms|, s + 1);
    }
    LawfulIsStart(costs, ones, limit, floor, s);
  }

  lemma SuffixCost(countTokens: Tokenizer, ms: seq<Message>, s: nat)
    requires s <= |ms|
    ensures Sum(Costs(countTokens, ms)[s..]) == TextTokens(countTokens, ms[s..]) + 4 * (|ms| - s)
  {
    assert Costs(countTokens, ms)[s..] == Costs(countTokens, ms[s..]);
    CostIsTextsAndFours(countTokens, ms[s..]);
  }

  /** A start is lawful exactly when the scan selects it. */
  lemma LawfulIsStart(costs: seq<int>, sizes: seq<int>, limit: int, floor: int, s: nat)
    requires s <= |costs| == |sizes| && NonNegative(costs) && NonNegative(sizes)
    ensures Lawful(costs, sizes, limit, floor, s) <==> s == GreedyStart(costs, sizes, limit, floor, |costs|)
  {
    GreedyLaw(costs, sizes, limit, floor);
    if Lawful(costs, sizes, limit, floor, s) {
      GreedyIsUnique(costs, sizes, limit, floor, s);
    }
  }

  lemma OnesSuffix(n: nat, k: nat)
    requires k <= n
    ensures Sum(Ones(n)[k..]) == n - k
  {
    assert Ones(n)[k..] == Ones(n - k);
    SumOfOnes(n - k);
  }
}
