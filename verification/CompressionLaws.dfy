/** What a compression run guarantees, for every scorer, tokenizer, budget and summary text. */
module CompressionLaws {
  import opened Messages
  import opened Sequences
  import opened Turns
  import opened TurnStability
  import opened Window
  import opened BudgetTrim
  import opened BudgetLaws
  import opened Grading
  import opened Compression

  /**
   Every turn of the input partition ends in one bucket and every system message is kept, although both
   budget passes partition an already thinned list. No kind of message is excluded.
   */
  lemma TurnsNeverSplit(svc: Services, s: Settings, ms: seq<Message>, existing: string)
    ensures WholeTurns(Roles(ms), Buckets(svc, s, ms, existing))
    ensures SystemsTagged(Roles(ms), Buckets(svc, s, ms, existing), Keep)
  {
    if ms != [] && !Fits(svc, s, ms, existing) {
      var cs := Compacted(svc, ms);
      GradesAreWhole(svc, s, ms);
      TrimKeepsTurnsWhole(svc, s, cs, GradeTags(svc, s, ms), existing, FirstTrim);
      TrimKeepsTurnsWhole(svc, s, cs, FirstTags(svc, s, ms, existing), GrownSummary(svc, s, ms, existing), SecondTrim);
    }
  }

  /** The same statement on the turns the partition lists: one bucket per turn. */
  lemma TurnHasOneBucket(svc: Services, s: Settings, ms: seq<Message>, existing: string, turn: seq<nat>, p: nat, q: nat)
    requires turn in TurnsOf(Roles(ms)) && p in turn && q in turn
    ensures p < |ms| && q < |ms|
    ensures Buckets(svc, s, ms, existing)[p] == Buckets(svc, s, ms, existing)[q]
  {
    TurnsNeverSplit(svc, s, ms, existing);
    TurnsAreRuns(Roles(ms));
    assert IsRun(Roles(ms), turn);
    RunIsUniform(Roles(ms), Buckets(svc, s, ms, existing), turn[0], p);
    RunIsUniform(Roles(ms), Buckets(svc, s, ms, existing), turn[0], q);
  }

  /** The newest `alwaysKeepRecent` messages survive grading and both budget passes. */
  lemma RecentMessagesSurvive(svc: Services, s: Settings, ms: seq<Message>, existing: string, i: nat)
    requires |ms| - s.alwaysKeepRecent <= i < |ms|
    ensures Buckets(svc, s, ms, existing)[i] == Keep
  {
    if ms != [] && !Fits(svc, s, ms, existing) {
      var cs := Compacted(svc, ms);
      RecentGradedKeep(svc, s, ms, i);
      TrimKeepsRecent(svc, s, cs, GradeTags(svc, s, ms), existing, FirstTrim, i);
      TrimKeepsRecent(svc, s, cs, FirstTags(svc, s, ms, existing), GrownSummary(svc, s, ms, existing), SecondTrim, i);
    }
  }

  /** The last message is never lost to a budget pass: it survives exactly when grading keeps it. */
  lemma LastSurvivesIffGradedKeep(svc: Services, s: Settings, ms: seq<Message>, existing: string)
    requires ms != []
    ensures Last(Buckets(svc, s, ms, existing)) == Keep <==>
            Fits(svc, s, ms, existing) || Last(GradeTags(svc, s, ms)) == Keep
    ensures !Fits(svc, s, ms, existing) ==> (Last(FirstTags(svc, s, ms, existing)) == Keep <==> Last(GradeTags(svc, s, ms)) == Keep)
  {
    var cs := Compacted(svc, ms);
    TrimOfLast(svc, s, cs, GradeTags(svc, s, ms), existing, FirstTrim);
    TrimOfLast(svc, s, cs, FirstTags(svc, s, ms, existing), GrownSummary(svc, s, ms, existing), SecondTrim);
  }

  lemma TrimOfLast(svc: Services, s: Settings, cs: seq<Message>, tags: seq<Bucket>, summary: string, trimmed: Bucket)
    requires cs != [] && |cs| == |tags|
    ensures Last(Trim(svc, s, cs, tags, summary, trimmed)) == Keep <==> Last(tags) == Keep
  {
    if Last(tags) == Keep {
      TrimKeepsRecent(svc, s, cs, tags, summary, trimmed, |cs| - 1);
    } else {
      TrimLeavesOut(svc, s, cs, tags, summary, trimmed, |cs| - 1);
    }
  }

  /** A pass never touches a position that is not kept. */
  lemma TrimLeavesOut(svc: Services, s: Settings, cs: seq<Message>, tags: seq<Bucket>, summary: string, trimmed: Bucket, i: nat)
    requires i < |cs| == |tags| && tags[i] != Keep
    ensures Trim(svc, s, cs, tags, summary, trimmed)[i] == tags[i]
  {
    PickLength(cs, tags, tags, Keep);
    LiftAt(tags, Keep, AsBuckets(PassMask(svc, s, Pick(cs, tags, Keep), summary), trimmed), i);
  }

  // ----- Conservation

  /** How many elements of each bucket equal `x`. */
  function Copies<T(==)>(xs: seq<T>, tags: seq<Bucket>, x: T): nat
    requires |xs| == |tags|
  {
    multiset(Pick(xs, tags, Keep))[x] + multiset(Pick(xs, tags, Discard))[x] + multiset(Pick(xs, tags, Summarize))[x] +
    multiset(Pick(xs, tags, FirstTrim))[x] + multiset(Pick(xs, tags, SecondTrim))[x]
  }

  lemma PickCount<T>(xs: seq<T>, tags: seq<Bucket>, b: Bucket, x: T)
    requires xs != [] && |xs| == |tags|
    ensures multiset(Pick(xs, tags, b))[x] ==
            multiset(Pick(Front(xs), Front(tags), b))[x] + if Last(tags) == b && Last(xs) == x then 1 else 0
  {
    PickStep(xs, tags, b);
  }

  lemma {:induction false} PicksPartition<T>(xs: seq<T>, tags: seq<Bucket>, x: T)
    requires |xs| == |tags|
    ensures multiset(xs)[x] == Copies(xs, tags, x)
  {
    if xs != [] {
      PicksPartition(Front(xs), Front(tags), x);
      assert xs == Front(xs) + [Last(xs)];
      PickCount(xs, tags, Keep, x);
      PickCount(xs, tags, Discard, x);
      PickCount(xs, tags, Summarize, x);
      PickCount(xs, tags, FirstTrim, x);
      PickCount(xs, tags, SecondTrim, x);
    }
  }

  lemma {:induction false} CompactedPick(svc: Services, ms: seq<Message>, tags: seq<Bucket>, b: Bucket)
    requires |ms| == |tags|
    ensures Compacted(svc, Pick(ms, tags, b)) == Pick(Compacted(svc, ms), tags, b)
  {
    if ms != [] {
      CompactedPick(svc, Front(ms), Front(tags), b);
      assert Front(Compacted(svc, ms)) == Compacted(svc, Front(ms));
      PickStep(ms, tags, b);
      PickStep(Compacted(svc, ms), tags, b);
    }
  }

  /** Kept, summarised and discarded together hold each input message once, up to compaction. */
  lemma NothingLostNothingTwice(svc: Services, s: Settings, ms: seq<Message>, existing: string)
    ensures var r := Outcome(svc, s, ms, existing);
            multiset(r.kept) + multiset(r.summarized) + multiset(Compacted(svc, r.discarded)) == multiset(Compacted(svc, ms))
  {
    forall m: Message { PicksPartition(Compacted(svc, ms), Buckets(svc, s, ms, existing), m); }
    CompactedPick(svc, ms, Buckets(svc, s, ms, existing), Discard);
  }

  /** The kept list is the kept input messages, compacted, in input order. */
  lemma KeptInInputOrder(svc: Services, s: Settings, ms: seq<Message>, existing: string, i: nat, j: nat)
    requires i < j < |ms|
    requires Buckets(svc, s, ms, existing)[i] == Keep && Buckets(svc, s, ms, existing)[j] == Keep
    ensures var kept, tags := Outcome(svc, s, ms, existing).kept, Buckets(svc, s, ms, existing);
            && Rank(tags, Keep, i) < Rank(tags, Keep, j) < |kept|
            && kept[Rank(tags, Keep, i)] == CompactMessage(svc, ms[i])
            && kept[Rank(tags, Keep, j)] == CompactMessage(svc, ms[j])
  {
    var cs, tags := Compacted(svc, ms), Buckets(svc, s, ms, existing);
    PickPrefix(cs, tags, Keep, i);
    PickPrefix(cs, tags, Keep, j);
    PickPrefix(tags[..j], tags[..j], Keep, i);
    assert tags[..j][..i] == tags[..i];
  }

  // ----- When anything is compressed, and within which budget

  /** A run leaves everything in place exactly when history and summary are within both bounds. */
  lemma FitsInNumbers(svc: Services, s: Settings, ms: seq<Message>, existing: string)
    ensures Fits(svc, s, ms, existing) <==>
            TextTokens(svc.countTokens, ms) + 4 * |ms| + svc.summaryTokens(existing) <= s.tokenBudget && |ms| <= s.maxMessages
    ensures Fits(svc, s, ms, existing) ==> Outcome(svc, s, ms, existing).kept == Compacted(svc, ms)
    ensures Fits(svc, s, ms, existing) ==> Outcome(svc, s, ms, existing).summary == svc.finalize(existing)
  {
    CostIsTextsAndFours(svc.countTokens, ms);
    if Fits(svc, s, ms, existing) {
      OutcomeWhenFits(svc, s, ms, existing);
    }
  }

  /** The list a pass leaves is the one allowed cut of the list it is given, with `summary` to be paid for. */
  ghost predicate PassOf(svc: Services, s: Settings, before: seq<Message>, summary: string, after: seq<Message>) {
    exists k: nat ::
      && k <= |TurnsOf(Roles(before))|
      && Allowed(svc.countTokens, before, s.tokenBudget, svc.summaryTokens(summary), s.alwaysKeepRecent, k)
      && after == LeftBy(before, k)
  }

  lemma MaskIsPass(svc: Services, s: Settings, before: seq<Message>, summary: string)
    ensures PassOf(svc, s, before, summary, Pick(before, PassMask(svc, s, before, summary), true))
  {
    PassInNumbers(svc.countTokens, before, s.tokenBudget, svc.summaryTokens(summary), s.alwaysKeepRecent);
  }

  /**
   The history a run leaves: what grading keeps, cut once with the old summary to be paid for and once more
   with the grown one, each time by the only cut the budget allows.
   */
  lemma BothPassesMeetTheBudget(svc: Services, s: Settings, ms: seq<Message>, existing: string)
    requires ms != [] && !Fits(svc, s, ms, existing)
    ensures var graded := Pick(Compacted(svc, ms), GradeTags(svc, s, ms), Keep);
            exists first ::
              && PassOf(svc, s, graded, existing, first)
              && PassOf(svc, s, first, GrownSummary(svc, s, ms, existing), Outcome(svc, s, ms, existing).kept)
  {
    var cs, tags := Compacted(svc, ms), GradeTags(svc, s, ms);
    GradesHaveNoTrim(svc, s, ms);
    TrimPicks(svc, s, cs, tags, existing, FirstTrim);
    SecondPass(svc, s, ms, existing);
    MaskIsPass(svc, s, Pick(cs, tags, Keep), existing);
    MaskIsPass(svc, s, PlanFor(svc, s, ms, existing).kept, GrownSummary(svc, s, ms, existing));
  }

  // ----- What the summary hears

  lemma FinalFromGraded(svc: Services, s: Settings, ms: seq<Message>, existing: string, i: nat)
    requires i < |ms|
    ensures var graded, first, last := GradeTags(svc, s, ms)[i], FirstTags(svc, s, ms, existing)[i], SecondTags(svc, s, ms, existing)[i];
            && (graded == Discard || graded == Summarize || graded == Keep)
            && (if graded == Keep then first == Keep || first == FirstTrim else first == graded)
            && (if first == Keep then last == Keep || last == SecondTrim else last == first)
  {
    var cs := Compacted(svc, ms);
    TagAfterTrim(svc, s, cs, GradeTags(svc, s, ms), existing, FirstTrim, i);
    TagAfterTrim(svc, s, cs, FirstTags(svc, s, ms, existing), GrownSummary(svc, s, ms, existing), SecondTrim, i);
  }

  lemma TagAfterTrim(svc: Services, s: Settings, cs: seq<Message>, tags: seq<Bucket>, summary: string, trimmed: Bucket, i: nat)
    requires i < |cs| == |tags|
    ensures var tag := Trim(svc, s, cs, tags, summary, trimmed)[i];
            if tags[i] == Keep then tag == Keep || tag == trimmed else tag == tags[i]
  {
    PickLength(cs, tags, tags, Keep);
    LiftAt(tags, Keep, AsBuckets(PassMask(svc, s, Pick(cs, tags, Keep), summary), trimmed), i);
  }

  /**
   Everything that leaves the history is told to the summary, once and in input order. Before the second
   pass: the graded-out messages, a discarded one in its own words and a summarised one compacted, then the
   first overflow, compacted. After it: the second overflow, compacted. A step with nothing to tell is skipped.
   */
  lemma SummaryHearsWhatLeaves(svc: Services, s: Settings, ms: seq<Message>, existing: string,
                               told: seq<Message>, graded: seq<bool>)
    requires ms != [] && !Fits(svc, s, ms, existing) && |told| == |graded| == |ms|
    requires forall i :: 0 <= i < |ms| ==>
               var tag := Buckets(svc, s, ms, existing)[i];
               && told[i] == (if tag == Discard then ms[i] else CompactMessage(svc, ms[i]))
               && graded[i] == (tag == Discard || tag == Summarize)
    ensures var cs, tags := Compacted(svc, ms), Buckets(svc, s, ms, existing);
            var facts, extra := Pick(told, graded, true) + Pick(cs, tags, FirstTrim), Pick(cs, tags, SecondTrim);
            var grown := if facts == [] then existing else svc.summarize(facts, existing);
            && GrownSummary(svc, s, ms, existing) == grown
            && Outcome(svc, s, ms, existing).summary == svc.finalize(if extra == [] then grown else svc.fold(grown, extra))
  {
    var cs, tags, before := Compacted(svc, ms), Buckets(svc, s, ms, existing), GradeTags(svc, s, ms);
    forall i | 0 <= i < |ms| ensures told[i] == FactSource(svc, ms, before)[i] && graded[i] == GradedOut(before)[i] {
      FinalFromGraded(svc, s, ms, existing, i);
    }
    assert told == FactSource(svc, ms, before) && graded == GradedOut(before);
    TrimKeepsOthers(svc, s, cs, FirstTags(svc, s, ms, existing), GrownSummary(svc, s, ms, existing), SecondTrim, cs, FirstTrim);
  }
}
