/**
 Re-deriving turns after whole turns have been dropped. Compression partitions the history once for
 grading and again, on an already thinned list, in each of its two budget passes.
 */
module TurnStability {
  import opened Messages
  import opened Sequences
  import opened Turns

  /** The tags never separate two messages of one turn. */
  ghost predicate WholeTurns<B>(roles: seq<Role>, tags: seq<B>) {
    && |tags| == |roles|
    && forall i :: 0 < i < |roles| && Glued(roles, i) ==> tags[i] == tags[i - 1]
  }

  ghost predicate SystemsTagged<B>(roles: seq<Role>, tags: seq<B>, b: B) {
    && |tags| == |roles|
    && forall i :: 0 <= i < |roles| && roles[i].System? ==> tags[i] == b
  }

  lemma WholeTurnsFront<B>(roles: seq<Role>, tags: seq<B>)
    requires roles != [] && WholeTurns(roles, tags)
    ensures WholeTurns(Front(roles), Front(tags))
    ensures |roles| > 1 && Glued(roles, |roles| - 1) ==> Last(tags) == Last(Front(tags))
  {
    forall i | 0 < i < |roles| - 1 && Glued(Front(roles), i) ensures tags[i] == tags[i - 1] {
      GluedPrefix(roles, |roles| - 1, i);
    }
  }

  lemma {:induction false} RunIsUniform<B>(roles: seq<Role>, tags: seq<B>, lo: nat, p: nat)
    requires WholeTurns(roles, tags) && lo <= p < |roles|
    requires forall k :: lo < k <= p ==> Glued(roles, k)
    ensures tags[p] == tags[lo]
  {
    if lo < p {
      RunIsUniform(roles, tags, lo, p - 1);
    }
  }

  /** What holds between the scan of a history and the scan of the same history with whole turns dropped. */
  ghost predicate InStep(full: Open, thin: Open, lastKept: bool) {
    && (thin.hasHuman ==> full.hasHuman)
    && (full.size == 0 ==> thin.size == 0)
    && (full.hasHuman || full.hasAI ==> full.size > 0)
    && (thin.hasHuman || thin.hasAI ==> thin.size > 0)
    && (lastKept && full.size > 0 ==>
          thin.size > 0 && thin.hasHuman == full.hasHuman && thin.hasAI == full.hasAI)
  }

  /** One message, kept or dropped, keeps the two scans in step. */
  lemma StepTogether(full: Open, thin: Open, lastKept: bool, r: Role, kept: bool)
    requires InStep(full, thin, lastKept)
    requires r.System? ==> kept
    requires !r.System? && full.size > 0 && !Cuts(full, r) ==> kept == lastKept
    ensures InStep(Advance(full, r), if kept then Advance(thin, r) else thin, kept)
  {}

  lemma PickStep<T, B>(xs: seq<T>, tags: seq<B>, b: B)
    requires xs != [] && |xs| == |tags|
    ensures Pick(xs, tags, b) == if Last(tags) == b then Pick(Front(xs), Front(tags), b) + [Last(xs)]
                                 else Pick(Front(xs), Front(tags), b)
  {}

  lemma OpenAfterSnoc(roles: seq<Role>, r: Role)
    ensures OpenAfter(roles + [r]) == Advance(OpenAfter(roles), r)
  {
    assert Front(roles + [r]) == roles;
  }

  lemma {:induction false} ScansInStep<B>(roles: seq<Role>, tags: seq<B>, b: B)
    requires WholeTurns(roles, tags) && SystemsTagged(roles, tags, b)
    ensures InStep(OpenAfter(roles), OpenAfter(Pick(roles, tags, b)), roles != [] && Last(tags) == b)
  {
    if roles != [] {
      var before := Front(roles);
      var thin := Pick(before, Front(tags), b);
      WholeTurnsFront(roles, tags);
      ScansInStep(before, Front(tags), b);
      PickStep(roles, tags, b);
      OpenAfterSnoc(thin, Last(roles));
      LastIsGlued(roles);
      StepTogether(OpenAfter(before), OpenAfter(thin), before != [] && Last(Front(tags)) == b, Last(roles), Last(tags) == b);
    }
  }

  lemma LastIsGlued(roles: seq<Role>)
    requires roles != []
    ensures Glued(roles, |roles| - 1) <==>
            && !Last(roles).System?
            && OpenAfter(Front(roles)).size > 0
            && !Cuts(OpenAfter(Front(roles)), Last(roles))
  {
    assert roles[..|roles| - 1] == Front(roles);
  }

  /**
   Dropping whole turns never makes a later partition cut through a turn of the original history: two
   neighbours of one surviving turn are neighbours of one turn again. This holds for every role.
   */
  lemma SurvivingTurnsStayWhole<B>(roles: seq<Role>, tags: seq<B>, b: B, i: nat)
    requires WholeTurns(roles, tags) && SystemsTagged(roles, tags, b)
    requires 0 < i < |roles| && Glued(roles, i) && tags[i] == b
    ensures var j := Rank(tags, b, i);
            0 < j < |Pick(roles, tags, b)| && Glued(Pick(roles, tags, b), j)
  {
    var thin := Pick(roles, tags, b);
    PickPrefix(roles, tags, b, i);
    PickPrefix(roles, tags, b, i - 1);
    var j := Rank(tags, b, i);
    assert thin[..j] == Pick(roles[..i], tags[..i], b);
    WholePrefix(roles, tags, b, i);
    ScansInStep(roles[..i], tags[..i], b);
    assert Last(tags[..i]) == b;
  }

  lemma WholePrefix<B>(roles: seq<Role>, tags: seq<B>, b: B, i: nat)
    requires WholeTurns(roles, tags) && SystemsTagged(roles, tags, b) && i <= |roles|
    ensures WholeTurns(roles[..i], tags[..i]) && SystemsTagged(roles[..i], tags[..i], b)
  {
    forall k | 0 < k < i && Glued(roles[..i], k) ensures tags[k] == tags[k - 1] {
      GluedPrefix(roles, i, k);
    }
  }

  lemma {:induction false} LiftAt<B>(outer: seq<B>, b: B, inner: seq<B>, i: nat)
    requires |inner| == |Pick(outer, outer, b)| && i < |outer|
    ensures outer[i] == b ==> Rank(outer, b, i) < |inner| && Lift(outer, b, inner)[i] == inner[Rank(outer, b, i)]
    ensures outer[i] != b ==> Lift(outer, b, inner)[i] == outer[i]
    ensures outer[i] == b ==> |inner| - Rank(outer, b, i) <= |outer| - i
  {
    var n := |outer| - 1;
    var inner' := if Last(outer) == b then Front(inner) else inner;
    PickStep(outer, outer, b);
    if i < n {
      LiftAt(Front(outer), b, inner', i);
      assert Front(outer)[..i] == outer[..i];
    } else {
      assert outer[..n] == Front(outer);
    }
  }

  lemma RankNext<B>(tags: seq<B>, b: B, i: nat)
    requires 0 < i <= |tags|
    ensures Rank(tags, b, i) == Rank(tags, b, i - 1) + (if tags[i - 1] == b then 1 else 0)
  {
    assert Front(tags[..i]) == tags[..i - 1];
    PickStep(tags[..i], tags[..i], b);
  }

  /**
   Tagging the thinned list by whole turns of *its own* partition tags the original history by whole
   turns of the original partition. This is what lets the passes be stacked.
   */
  lemma LiftKeepsTurnsWhole<B>(roles: seq<Role>, outer: seq<B>, b: B, inner: seq<B>)
    requires WholeTurns(roles, outer) && SystemsTagged(roles, outer, b)
    requires |inner| == |Pick(roles, outer, b)| == |Pick(outer, outer, b)|
    requires WholeTurns(Pick(roles, outer, b), inner)
    ensures WholeTurns(roles, Lift(outer, b, inner))
  {
    forall i | 0 < i < |roles| && Glued(roles, i) ensures Lift(outer, b, inner)[i] == Lift(outer, b, inner)[i - 1] {
      LiftAt(outer, b, inner, i);
      LiftAt(outer, b, inner, i - 1);
      if outer[i] == b {
        SurvivingTurnsStayWhole(roles, outer, b, i);
        RankNext(outer, b, i);
      }
    }
  }

  lemma {:induction false} LiftKeepsSystems<B>(roles: seq<Role>, outer: seq<B>, b: B, inner: seq<B>)
    requires SystemsTagged(roles, outer, b)
    requires |inner| == |Pick(roles, outer, b)| == |Pick(outer, outer, b)|
    requires SystemsTagged(Pick(roles, outer, b), inner, b)
    ensures SystemsTagged(roles, Lift(outer, b, inner), b)
  {
    if roles != [] {
      var thin := Pick(roles, outer, b);
      PickLength(Front(roles), Front(outer), Front(outer), b);
      if Last(outer) == b {
        assert Front(thin) == Pick(Front(roles), Front(outer), b);
        assert forall k :: 0 <= k < |thin| - 1 ==> Front(thin)[k] == thin[k];
        LiftKeepsSystems(Front(roles), Front(outer), b, Front(inner));
      } else {
        assert thin == Pick(Front(roles), Front(outer), b);
        LiftKeepsSystems(Front(roles), Front(outer), b, inner);
      }
    }
  }

  // ----- When re-partitioning gives exactly the surviving turns

  /** Every survivor is glued to the survivor before it exactly when it was glued to it in the full history. */
  ghost predicate Stable(roles: seq<Role>, keep: seq<bool>)
    requires |keep| == |roles|
  {
    forall j :: 0 <= j < |roles| && keep[j] ==> StableAt(roles, keep, j)
  }

  ghost predicate StableAt(roles: seq<Role>, keep: seq<bool>, j: nat)
    requires j < |keep| == |roles| && keep[j]
  {
    var thin := Pick(roles[..j + 1], keep[..j + 1], true);
    thin != [] && (Glued(thin, |thin| - 1) <==> j > 0 && keep[j - 1] && Glued(roles, j))
  }

  /** Neither human nor AI so far: such a turn can only be the first one of its segment. */
  predicate AllOther(open: Open) {
    open.size > 0 && !open.hasHuman && !open.hasAI
  }

  /** The current segment began with other kinds of message followed directly by an AI message. */
  predicate OddStart(roles: seq<Role>) {
    && roles != []
    && !Last(roles).System?
    && (OddStart(Front(roles)) || (Last(roles).AI? && AllOther(OpenAfter(Front(roles)))))
  }

  /** Some segment begins with other kinds of message, goes on with an AI message and has a human one later. */
  predicate Hazard(roles: seq<Role>) {
    && roles != []
    && (Hazard(Front(roles)) || (Last(roles).Human? && OddStart(Front(roles))))
  }

  /** A plain human/AI/system history has no such segment. */
  lemma {:induction false} PlainHasNoHazard(roles: seq<Role>)
    requires Plain(roles)
    ensures !AllOther(OpenAfter(roles)) && !OddStart(roles) && !Hazard(roles)
  {
    if roles != [] {
      PlainHasNoHazard(Front(roles));
    }
  }

  lemma {:induction false} DroppedTurnsLeaveNoAllOther(roles: seq<Role>, keep: seq<bool>)
    requires WholeTurns(roles, keep) && SystemsTagged(roles, keep, true) && !Hazard(roles)
    ensures var thin := OpenAfter(Pick(roles, keep, true));
            thin.size > 0 && !thin.hasAI ==> OddStart(roles) || Last(keep)
  {
    if roles != [] {
      var before := Front(roles);
      WholeTurnsFront(roles, keep);
      DroppedTurnsLeaveNoAllOther(before, Front(keep));
      ScansInStep(before, Front(keep), true);
      PickStep(roles, keep, true);
      LastIsGlued(roles);
    }
  }

  lemma StableAtAll(roles: seq<Role>, keep: seq<bool>, j: nat)
    requires WholeTurns(roles, keep) && SystemsTagged(roles, keep, true)
    requires j < |roles| && keep[j] && !Hazard(roles[..j + 1])
    ensures StableAt(roles, keep, j)
  {
    var before, kept := roles[..j], keep[..j];
    var thin := Pick(before, kept, true);
    assert Front(roles[..j + 1]) == before && Front(keep[..j + 1]) == kept;
    assert Pick(roles[..j + 1], keep[..j + 1], true) == thin + [roles[j]];
    assert (thin + [roles[j]])[..|thin|] == thin;
    WholePrefix(roles, keep, true, j);
    ScansInStep(before, kept, true);
    DroppedTurnsLeaveNoAllOther(before, kept);
  }

  lemma {:induction false} HazardPrefix(roles: seq<Role>, i: nat)
    requires i <= |roles| && Hazard(roles[..i])
    ensures Hazard(roles)
  {
    if i < |roles| {
      assert Front(roles)[..i] == roles[..i];
      HazardPrefix(Front(roles), i);
    } else {
      assert roles[..i] == roles;
    }
  }

  /** From the odd AI message on, until a human one comes, every turn so far has an AI and no human message. */
  lemma {:induction false} OddStartAt(roles: seq<Role>) returns (a: nat)
    requires OddStart(roles) && !Hazard(roles)
    ensures 0 < a < |roles| && AllOther(OpenAfter(roles[..a])) && roles[a].AI?
    ensures OpenAfter(roles).hasAI && !OpenAfter(roles).hasHuman
    ensures forall k :: a <= k < |roles| ==> !roles[k].System?
  {
    var before := Front(roles);
    if OddStart(before) {
      a := OddStartAt(before);
      assert before[..a] == roles[..a];
    } else {
      a := |roles| - 1;
      assert roles[..a] == before;
    }
  }

  /** Masks can be extended to the right without repairing an unstable survivor. */
  lemma ExtendUnstable(roles: seq<Role>, before: seq<bool>, j: nat) returns (keep: seq<bool>)
    requires roles != []
    requires WholeTurns(Front(roles), before) && SystemsTagged(Front(roles), before, true)
    requires j < |before| && before[j] && !StableAt(Front(roles), before, j)
    ensures WholeTurns(roles, keep) && SystemsTagged(roles, keep, true)
    ensures keep[j] && !StableAt(roles, keep, j)
  {
    keep := before + [if |roles| > 1 && Glued(roles, |roles| - 1) then Last(before) else true];
    assert Front(keep) == before;
    WholeTurnsExtend(roles, keep);
    StableAtPrefix(roles, keep, j);
  }

  lemma WholeTurnsExtend<B>(roles: seq<Role>, tags: seq<B>)
    requires roles != [] && |tags| == |roles| && WholeTurns(Front(roles), Front(tags))
    requires |roles| > 1 && Glued(roles, |roles| - 1) ==> Last(tags) == Last(Front(tags))
    ensures WholeTurns(roles, tags)
  {
    forall i | 0 < i < |roles| - 1 && Glued(roles, i) ensures tags[i] == tags[i - 1] {
      GluedPrefix(roles, |roles| - 1, i);
      assert Front(tags)[i] == Front(tags)[i - 1];
    }
  }

  lemma StableAtPrefix(roles: seq<Role>, keep: seq<bool>, j: nat)
    requires |keep| == |roles| && j < |roles| - 1 && keep[j]
    ensures StableAt(Front(roles), Front(keep), j) <==> StableAt(roles, keep, j)
  {
    assert Front(roles)[..j + 1] == roles[..j + 1] && Front(keep)[..j + 1] == keep[..j + 1];
    GluedPrefix(roles, |roles| - 1, j);
  }

  /** Keep the odd opening and the human message, drop what lies between: the two are merged. */
  lemma DropMiddleMerges(roles: seq<Role>, a: nat, keep: seq<bool>)
    requires roles != [] && 0 < a < |roles| - 1
    requires AllOther(OpenAfter(roles[..a])) && Last(roles).Human?
    requires keep == seq(a, i => true) + seq(|roles| - 1 - a, i => false) + [true]
    ensures !StableAt(roles, keep, |roles| - 1)
  {
    var n := |roles| - 1;
    var head, middle := seq(a, i => true), seq(n - a, i => false);
    PickAll(roles[..a], head, true);
    PickNone(roles[a..n], middle, true);
    PickAppend(roles[..a], roles[a..n], head, middle, true);
    assert roles[..a] + roles[a..n] == Front(roles) && Front(keep) == head + middle;
    assert Pick(roles, keep, true) == roles[..a] + [roles[n]];
    assert roles[..n + 1] == roles && keep[..n + 1] == keep;
    assert (roles[..a] + [roles[n]])[..a] == roles[..a];
    assert !keep[n - 1];
  }

  /** In a history with such a segment some choice of whole turns to drop merges two surviving turns. */
  lemma {:induction false} HazardMergesTurns(roles: seq<Role>) returns (keep: seq<bool>, j: nat)
    requires Hazard(roles)
    ensures WholeTurns(roles, keep) && SystemsTagged(roles, keep, true)
    ensures j < |roles| && keep[j] && !StableAt(roles, keep, j)
  {
    if Hazard(Front(roles)) {
      var before, at := HazardMergesTurns(Front(roles));
      j := at;
      keep := ExtendUnstable(roles, before, j);
    } else {
      var a := OddStartAt(Front(roles));
      assert Front(roles)[..a] == roles[..a];
      keep := seq(a, i => true) + seq(|roles| - 1 - a, i => false) + [true];
      DropMiddleIsWhole(roles, a, keep);
      DropMiddleMerges(roles, a, keep);
      j := |roles| - 1;
    }
  }

  lemma DropMiddleIsWhole(roles: seq<Role>, a: nat, keep: seq<bool>)
    requires roles != [] && 0 < a < |roles| - 1
    requires OddStart(Front(roles)) && !Hazard(Front(roles)) && Last(roles).Human?
    requires AllOther(OpenAfter(roles[..a])) && roles[a].AI?
    requires forall k :: a <= k < |roles| - 1 ==> !roles[k].System?
    requires keep == seq(a, i => true) + seq(|roles| - 1 - a, i => false) + [true]
    ensures WholeTurns(roles, keep) && SystemsTagged(roles, keep, true)
  {
    var n := |roles| - 1;
    assert roles[..n] == Front(roles);
    var _ := OddStartAt(Front(roles));
    assert !Glued(roles, a) && !Glued(roles, n);
  }

  /**
   Re-partitioning after dropping whole turns yields exactly the surviving turns, whatever is dropped, if
   and only if no segment starts with other kinds of message, continues with an AI message and has a
   human message later.
   */
  lemma RepartitionIsExactIffNoHazard(roles: seq<Role>)
    ensures (forall keep: seq<bool> :: WholeTurns(roles, keep) && SystemsTagged(roles, keep, true) ==> Stable(roles, keep))
            <==> !Hazard(roles)
  {
    if Hazard(roles) {
      var keep, j := HazardMergesTurns(roles);
      assert !Stable(roles, keep);
    } else {
      forall keep: seq<bool> | WholeTurns(roles, keep) && SystemsTagged(roles, keep, true)
        ensures Stable(roles, keep)
      {
        forall j | 0 <= j < |roles| && keep[j] ensures StableAt(roles, keep, j) {
          if Hazard(roles[..j + 1]) {
            HazardPrefix(roles, j + 1);
          }
          StableAtAll(roles, keep, j);
        }
      }
    }
  }
}
