/** Graded compression of a history: grade by turn, trim to budget, summarise, trim again. */
module Compression {
  import opened Messages
  import opened Sequences
  import opened TurnStability
  import opened Window
  import opened BudgetTrim
  import opened Grading

  datatype CompressResult = CompressResult(
    kept: seq<Message>, summarized: seq<Message>, discarded: seq<Message>, summary: string, updated: seq<Message>)

  // ----- Stacking a budget pass on earlier tags

  function AsBuckets(survives: seq<bool>, trimmed: Bucket): (tags: seq<Bucket>)
    ensures |tags| == |survives|
  {
    seq(|survives|, i requires 0 <= i < |survives| => if survives[i] then Keep else trimmed)
  }

  lemma {:induction false} PickAsBuckets<T>(xs: seq<T>, survives: seq<bool>, trimmed: Bucket)
    requires |xs| == |survives| && trimmed != Keep
    ensures Pick(xs, AsBuckets(survives, trimmed), Keep) == Pick(xs, survives, true)
    ensures Pick(xs, AsBuckets(survives, trimmed), trimmed) == Pick(xs, survives, false)
  {
    if xs != [] {
      PickAsBuckets(Front(xs), Front(survives), trimmed);
      assert Front(AsBuckets(survives, trimmed)) == AsBuckets(Front(survives), trimmed);
      PickStep(xs, survives, true);
      PickStep(xs, survives, false);
    }
  }

  /** The tags after a budget pass over what `tags` keeps: its overflow moves to the bucket `trimmed`. */
  function Trim(svc: Services, s: Settings, cs: seq<Message>, tags: seq<Bucket>, summary: string, trimmed: Bucket)
    : (tags': seq<Bucket>)
    requires |cs| == |tags|
    ensures |tags'| == |cs|
  {
    PickLength(cs, tags, tags, Keep);
    Lift(tags, Keep, AsBuckets(PassMask(svc, s, Pick(cs, tags, Keep), summary), trimmed))
  }

  function PassMask(svc: Services, s: Settings, kept: seq<Message>, summary: string): (survives: seq<bool>)
    ensures |survives| == |kept|
  {
    Survives(svc.countTokens, kept, s.tokenBudget, svc.summaryTokens(summary), s.alwaysKeepRecent)
  }

  lemma TrimPicks(svc: Services, s: Settings, cs: seq<Message>, tags: seq<Bucket>, summary: string, trimmed: Bucket)
    requires |cs| == |tags| && trimmed != Keep && trimmed !in tags
    ensures var kept := Pick(cs, tags, Keep);
            var survives := PassMask(svc, s, kept, summary);
            && Pick(cs, Trim(svc, s, cs, tags, summary, trimmed), Keep) == Pick(kept, survives, true)
            && Pick(cs, Trim(svc, s, cs, tags, summary, trimmed), trimmed) == Pick(kept, survives, false)
  {
    var kept := Pick(cs, tags, Keep);
    var inner := AsBuckets(PassMask(svc, s, kept, summary), trimmed);
    PickLength(cs, tags, tags, Keep);
    PickLift(cs, tags, Keep, inner, Keep);
    PickLift(cs, tags, Keep, inner, trimmed);
    PickAsBuckets(kept, PassMask(svc, s, kept, summary), trimmed);
  }

  /** A pass leaves every other bucket as it was. */
  lemma TrimKeepsOthers<T>(svc: Services, s: Settings, cs: seq<Message>, tags: seq<Bucket>, summary: string,
                           trimmed: Bucket, xs: seq<T>, other: Bucket)
    requires |xs| == |cs| == |tags| && trimmed != Keep && other != Keep && other != trimmed
    ensures Pick(xs, Trim(svc, s, cs, tags, summary, trimmed), other) == Pick(xs, tags, other)
  {
    PickLength(cs, tags, tags, Keep);
    PickLift(xs, tags, Keep, AsBuckets(PassMask(svc, s, Pick(cs, tags, Keep), summary), trimmed), other);
  }

  lemma {:induction false} LiftMembers<B>(outer: seq<B>, b: B, inner: seq<B>, c: B)
    requires |inner| == |Pick(outer, outer, b)|
    requires c in Lift(outer, b, inner)
    ensures c in outer || c in inner
  {
    if outer != [] {
      var inner' := if Last(outer) == b then Front(inner) else inner;
      assert Lift(outer, b, inner) ==
             Lift(Front(outer), b, inner') + [if Last(outer) == b then Last(inner) else Last(outer)];
      if c in Lift(Front(outer), b, inner') {
        LiftMembers(Front(outer), b, inner', c);
      }
    }
  }

  lemma TrimMembers(svc: Services, s: Settings, cs: seq<Message>, tags: seq<Bucket>, summary: string, trimmed: Bucket,
                    c: Bucket)
    requires |cs| == |tags| && c in Trim(svc, s, cs, tags, summary, trimmed)
    ensures c in tags || c == Keep || c == trimmed
  {
    PickLength(cs, tags, tags, Keep);
    LiftMembers(tags, Keep, AsBuckets(PassMask(svc, s, Pick(cs, tags, Keep), summary), trimmed), c);
  }

  lemma {:induction false} RolesOfPick<B>(ms: seq<Message>, tags: seq<B>, b: B)
    requires |ms| == |tags|
    ensures Roles(Pick(ms, tags, b)) == Pick(Roles(ms), tags, b)
  {
    if ms != [] {
      RolesOfPick(Front(ms), Front(tags), b);
      assert Front(Roles(ms)) == Roles(Front(ms));
      PickStep(ms, tags, b);
      PickStep(Roles(ms), tags, b);
    }
  }

  /** Passes keep turns of the original history whole, although they partition the thinned list anew. */
  lemma TrimKeepsTurnsWhole(svc: Services, s: Settings, cs: seq<Message>, tags: seq<Bucket>, summary: string, trimmed: Bucket)
    requires |cs| == |tags| && trimmed != Keep
    requires WholeTurns(Roles(cs), tags) && SystemsTagged(Roles(cs), tags, Keep)
    ensures WholeTurns(Roles(cs), Trim(svc, s, cs, tags, summary, trimmed))
    ensures SystemsTagged(Roles(cs), Trim(svc, s, cs, tags, summary, trimmed), Keep)
  {
    var kept := Pick(cs, tags, Keep);
    var survives := PassMask(svc, s, kept, summary);
    var inner := AsBuckets(survives, trimmed);
    PickLength(cs, tags, tags, Keep);
    PickLength(cs, Roles(cs), tags, Keep);
    RolesOfPick(cs, tags, Keep);
    KeptFromIsWhole(Roles(kept), FirstTurnKept(svc.countTokens, kept, s.tokenBudget, svc.summaryTokens(summary), s.alwaysKeepRecent));
    assert WholeTurns(Roles(kept), inner) && SystemsTagged(Roles(kept), inner, Keep) by {
      assert WholeTurns(Roles(kept), survives) && SystemsTagged(Roles(kept), survives, true);
    }
    LiftKeepsTurnsWhole(Roles(cs), tags, Keep, inner);
    LiftKeepsSystems(Roles(cs), tags, Keep, inner);
  }

  /** The newest `alwaysKeepRecent` positions, if kept so far, stay kept through a pass. */
  lemma TrimKeepsRecent(svc: Services, s: Settings, cs: seq<Message>, tags: seq<Bucket>, summary: string, trimmed: Bucket, i: nat)
    requires i < |cs| == |tags| && tags[i] == Keep && |cs| - i <= AtLeastOne(s.alwaysKeepRecent)
    ensures Trim(svc, s, cs, tags, summary, trimmed)[i] == Keep
  {
    var kept := Pick(cs, tags, Keep);
    PickLength(cs, tags, tags, Keep);
    LiftAt(tags, Keep, AsBuckets(PassMask(svc, s, kept, summary), trimmed), i);
    RecentSurvive(svc.countTokens, kept, s.tokenBudget, svc.summaryTokens(summary), s.alwaysKeepRecent, Rank(tags, Keep, i));
  }

  // ----- The whole run as a tagging of positions

  /** Nothing to do: the history and its summary already fit. */
  predicate Fits(svc: Services, s: Settings, ms: seq<Message>, existing: string) {
    Sum(Costs(svc.countTokens, ms)) + svc.summaryTokens(existing) <= s.tokenBudget && |ms| <= s.maxMessages
  }

  function FirstTags(svc: Services, s: Settings, ms: seq<Message>, existing: string): (tags: seq<Bucket>)
    ensures |tags| == |ms|
  {
    Trim(svc, s, Compacted(svc, ms), GradeTags(svc, s, ms), existing, FirstTrim)
  }

  /** The messages whose facts the summary must absorb before the second pass. */
  function FactOverflow(svc: Services, s: Settings, ms: seq<Message>, existing: string): seq<Message> {
    var graded := GradeTags(svc, s, ms);
    Pick(FactSource(svc, ms, graded), GradedOut(graded), true) +
    Pick(Compacted(svc, ms), FirstTags(svc, s, ms, existing), FirstTrim)
  }

  function GrownSummary(svc: Services, s: Settings, ms: seq<Message>, existing: string): string {
    var facts := FactOverflow(svc, s, ms, existing);
    if facts != [] then svc.summarize(facts, existing) else existing
  }

  function SecondTags(svc: Services, s: Settings, ms: seq<Message>, existing: string): (tags: seq<Bucket>)
    ensures |tags| == |ms|
  {
    Trim(svc, s, Compacted(svc, ms), FirstTags(svc, s, ms, existing), GrownSummary(svc, s, ms, existing), SecondTrim)
  }

  function AllKept(n: nat): (tags: seq<Bucket>)
    ensures |tags| == n && forall i :: 0 <= i < n ==> tags[i] == Keep
  {
    seq(n, _ => Keep)
  }

  /** The bucket every input position ends in. */
  function Buckets(svc: Services, s: Settings, ms: seq<Message>, existing: string): (tags: seq<Bucket>)
    ensures |tags| == |ms|
  {
    if ms == [] || Fits(svc, s, ms, existing) then AllKept(|ms|) else SecondTags(svc, s, ms, existing)
  }

  function Ids(ms: seq<Message>): set<string> {
    set m | m in ms && m.id.Some? :: m.id.value
  }

  function DropIds(ms: seq<Message>, ids: set<string>): seq<Message> {
    if ms == [] then []
    else
      DropIds(Front(ms), ids) + if Last(ms).id.Some? && Last(ms).id.value in ids then [] else [Last(ms)]
  }

  /** A usable message id: the source treats a missing and an empty one alike. */
  predicate HasId(m: Message) {
    m.id.Some? && m.id.value != ""
  }

  function WithIds(ms: seq<Message>): seq<Message> {
    if ms == [] then [] else WithIds(Front(ms)) + if HasId(Last(ms)) then [Last(ms)] else []
  }

  function Updated(svc: Services, s: Settings, ms: seq<Message>, existing: string): seq<Message> {
    var cs := Compacted(svc, ms);
    if ms == [] || Fits(svc, s, ms, existing) then WithIds(Pick(cs, RewrittenKept(svc, ms, AllKept(|ms|)), true))
    else
      var graded := Pick(cs, RewrittenKept(svc, ms, GradeTags(svc, s, ms)), true);
      DropIds(DropIds(graded, Ids(Pick(cs, FirstTags(svc, s, ms, existing), FirstTrim))),
              Ids(Pick(cs, SecondTags(svc, s, ms, existing), SecondTrim)))
  }

  function FinalSummary(svc: Services, s: Settings, ms: seq<Message>, existing: string): string {
    if ms == [] || Fits(svc, s, ms, existing) then svc.finalize(existing)
    else
      var extra := Pick(Compacted(svc, ms), SecondTags(svc, s, ms, existing), SecondTrim);
      var grown := GrownSummary(svc, s, ms, existing);
      svc.finalize(if extra != [] then svc.fold(grown, extra) else grown)
  }

  /** The result of a run, read off the final buckets. */
  function Outcome(svc: Services, s: Settings, ms: seq<Message>, existing: string): CompressResult {
    var cs, tags := Compacted(svc, ms), Buckets(svc, s, ms, existing);
    CompressResult(
      Pick(cs, tags, Keep),
      Pick(cs, tags, Summarize) + Pick(cs, tags, FirstTrim) + Pick(cs, tags, SecondTrim),
      Pick(ms, tags, Discard),
      FinalSummary(svc, s, ms, existing),
      Updated(svc, s, ms, existing))
  }

  // ----- The run

  method DropUpdated(updated: seq<Message>, overflow: seq<Message>) returns (out: seq<Message>)
    ensures out == DropIds(updated, Ids(overflow))
  {
    var overflowIds := Ids(overflow);
    out := [];
    for i := 0 to |updated|
      invariant out == DropIds(updated[..i], overflowIds)
    {
      assert Front(updated[..i + 1]) == updated[..i];
      if !(updated[i].id.Some? && updated[i].id.value in overflowIds) {
        out := out + [updated[i]];
      }
    }
    assert updated[..|updated|] == updated;
  }

  method ApplyRagCompact(svc: Services, messages: seq<Message>) returns (kept: seq<Message>, updated: seq<Message>)
    ensures kept == Compacted(svc, messages)
    ensures updated == WithIds(Pick(Compacted(svc, messages), RewrittenKept(svc, messages, AllKept(|messages|)), true))
  {
    ghost var cs, mask := Compacted(svc, messages), RewrittenKept(svc, messages, AllKept(|messages|));
    kept, updated := [], [];
    for i := 0 to |messages|
      invariant kept == cs[..i]
      invariant updated == WithIds(Pick(cs[..i], mask[..i], true))
    {
      var compact := CompactMessage(svc, messages[i]);
      assert Front(cs[..i + 1]) == cs[..i] && Front(mask[..i + 1]) == mask[..i];
      PickStep(cs[..i + 1], mask[..i + 1], true);
      WithIdsSnoc(Pick(cs[..i], mask[..i], true), compact);
      kept := kept + [compact];
      if compact != messages[i] && HasId(compact) {
        updated := updated + [compact];
      }
    }
    assert cs[..|messages|] == cs && mask[..|messages|] == mask;
  }

  lemma WithIdsSnoc(ms: seq<Message>, m: Message)
    ensures WithIds(ms + [m]) == WithIds(ms) + if HasId(m) then [m] else []
  {
    assert Front(ms + [m]) == ms;
  }

  datatype Plan = Plan(
    kept: seq<Message>, summarized: seq<Message>, discarded: seq<Message>, factOverflow: seq<Message>, updated: seq<Message>)

  /** What planning hands to the second pass. */
  function PlanFor(svc: Services, s: Settings, ms: seq<Message>, existing: string): Plan {
    var cs, graded, tags := Compacted(svc, ms), GradeTags(svc, s, ms), FirstTags(svc, s, ms, existing);
    Plan(Pick(cs, tags, Keep), Pick(cs, tags, Summarize) + Pick(cs, tags, FirstTrim), Pick(ms, tags, Discard),
         FactOverflow(svc, s, ms, existing),
         DropIds(Pick(cs, RewrittenKept(svc, ms, graded), true), Ids(Pick(cs, tags, FirstTrim))))
  }

  lemma GradesHaveNoTrim(svc: Services, s: Settings, ms: seq<Message>)
    ensures FirstTrim !in GradeTags(svc, s, ms) && SecondTrim !in GradeTags(svc, s, ms)
  {}

  method PlanCompression(svc: Services, s: Settings, messages: seq<Message>, existing: string) returns (plan: Plan)
    ensures plan == PlanFor(svc, s, messages, existing)
  {
    ghost var cs, graded := Compacted(svc, messages), GradeTags(svc, s, messages);
    var tables := GradeTurns(svc, s, messages);
    GradesAreWhole(svc, s, messages);
    GradedTablesMatch(svc, messages, tables.keepOrig, tables.compactBy, graded);
    var kept, updated := Rebuild(svc, messages, tables.keepOrig, tables.compactBy, graded);
    var keptOut, overflow := SplitKeptByBudget(svc.countTokens, kept, s.tokenBudget, svc.summaryTokens(existing), s.alwaysKeepRecent);
    GradesHaveNoTrim(svc, s, messages);
    TrimPicks(svc, s, cs, graded, existing, FirstTrim);
    TrimKeepsOthers(svc, s, cs, graded, existing, FirstTrim, cs, Summarize);
    TrimKeepsOthers(svc, s, cs, graded, existing, FirstTrim, messages, Discard);
    var updatedLeft := DropUpdated(updated, overflow);
    plan := Plan(keptOut, tables.summarized + overflow, tables.discarded, tables.factOverflow + overflow, updatedLeft);
  }

  method FinalizeCompression(svc: Services, s: Settings, ghost messages: seq<Message>, existing: string, plan: Plan, summary: string)
    returns (r: CompressResult)
    requires messages != [] && !Fits(svc, s, messages, existing)
    requires plan == PlanFor(svc, s, messages, existing) && summary == GrownSummary(svc, s, messages, existing)
    ensures r == Outcome(svc, s, messages, existing)
  {
    var kept, extra := SplitKeptByBudget(svc.countTokens, plan.kept, s.tokenBudget, svc.summaryTokens(summary), s.alwaysKeepRecent);
    SecondPass(svc, s, messages, existing);
    var summarized, updated, text := plan.summarized, plan.updated, summary;
    if extra != [] {
      summarized := summarized + extra;
      updated := DropUpdated(updated, extra);
      text := svc.fold(summary, extra);
    } else {
      DropNoIds(updated);
    }
    r := CompressResult(kept, summarized, plan.discarded, svc.finalize(text), updated);
  }

  /** How the second pass turns the plan into the outcome. */
  lemma SecondPass(svc: Services, s: Settings, ms: seq<Message>, existing: string)
    requires ms != [] && !Fits(svc, s, ms, existing)
    ensures var plan, out := PlanFor(svc, s, ms, existing), Outcome(svc, s, ms, existing);
            var survives := PassMask(svc, s, plan.kept, GrownSummary(svc, s, ms, existing));
            var extra := Pick(plan.kept, survives, false);
            && out.kept == Pick(plan.kept, survives, true)
            && out.summarized == plan.summarized + extra
            && out.discarded == plan.discarded
            && out.updated == DropIds(plan.updated, Ids(extra))
            && extra == Pick(Compacted(svc, ms), SecondTags(svc, s, ms, existing), SecondTrim)
  {
    var cs, tags, summary := Compacted(svc, ms), FirstTags(svc, s, ms, existing), GrownSummary(svc, s, ms, existing);
    NoSecondTrimYet(svc, s, ms, existing);
    TrimPicks(svc, s, cs, tags, summary, SecondTrim);
    TrimKeepsOthers(svc, s, cs, tags, summary, SecondTrim, cs, Summarize);
    TrimKeepsOthers(svc, s, cs, tags, summary, SecondTrim, cs, FirstTrim);
    TrimKeepsOthers(svc, s, cs, tags, summary, SecondTrim, ms, Discard);
  }

  lemma {:induction false} DropNoIds(ms: seq<Message>)
    ensures DropIds(ms, Ids([])) == ms
  {
    if ms != [] {
      DropNoIds(Front(ms));
    }
  }

  lemma NoSecondTrimYet(svc: Services, s: Settings, ms: seq<Message>, existing: string)
    ensures SecondTrim !in FirstTags(svc, s, ms, existing)
  {
    GradesHaveNoTrim(svc, s, ms);
    if SecondTrim in FirstTags(svc, s, ms, existing) {
      TrimMembers(svc, s, Compacted(svc, ms), GradeTags(svc, s, ms), existing, FirstTrim, SecondTrim);
      assert false;
    }
  }

  lemma AllKeptPicks<T>(xs: seq<T>)
    ensures Pick(xs, AllKept(|xs|), Keep) == xs
    ensures forall b :: b != Keep ==> Pick(xs, AllKept(|xs|), b) == []
  {
    PickAll(xs, AllKept(|xs|), Keep);
    forall b | b != Keep ensures Pick(xs, AllKept(|xs|), b) == [] {
      PickNone(xs, AllKept(|xs|), b);
    }
  }

  /** Nothing to grade: everything is kept, compacted where that changes a message. */
  lemma OutcomeWhenFits(svc: Services, s: Settings, ms: seq<Message>, existing: string)
    requires ms == [] || Fits(svc, s, ms, existing)
    ensures Outcome(svc, s, ms, existing) ==
            CompressResult(Compacted(svc, ms), [], [], svc.finalize(existing),
                           WithIds(Pick(Compacted(svc, ms), RewrittenKept(svc, ms, AllKept(|ms|)), true)))
  {
    AllKeptPicks(ms);
    AllKeptPicks(Compacted(svc, ms));
  }

  method RunCompression(svc: Services, s: Settings, messages: seq<Message>, existing: string) returns (r: CompressResult)
    ensures r == Outcome(svc, s, messages, existing)
  {
    if messages == [] {
      OutcomeWhenFits(svc, s, messages, existing);
      return CompressResult([], [], [], svc.finalize(existing), []);
    }
    var total := Sum(Costs(svc.countTokens, messages)) + svc.summaryTokens(existing);
    if total <= s.tokenBudget && |messages| <= s.maxMessages {
      OutcomeWhenFits(svc, s, messages, existing);
      var kept, updated := ApplyRagCompact(svc, messages);
      return CompressResult(kept, [], [], svc.finalize(existing), updated);
    }
    var plan := PlanCompression(svc, s, messages, existing);
    var summary := existing;
    if plan.factOverflow != [] {
      summary := svc.summarize(plan.factOverflow, existing);
    }
    r := FinalizeCompression(svc, s, messages, existing, plan, summary);
  }
}
