/** What a partition looks like after whole turns have been dropped: the turns that are left, renumbered. */
module SurvivingTurns {
  import opened Messages
  import opened Sequences
  import opened Turns
  import opened TurnStability
  import opened BudgetTrim

  /** A turn in the positions its messages have among the survivors. */
  function Renumber(keep: seq<bool>, turn: seq<nat>): (moved: seq<nat>)
    requires Within(turn, |keep|)
    ensures |moved| == |turn|
  {
    seq(|turn|, k requires 0 <= k < |turn| => Rank(keep, true, turn[k]))
  }

  /** The turns that are kept, renumbered. */
  function Surviving(turns: seq<seq<nat>>, keep: seq<bool>): seq<seq<nat>>
    requires TurnsWithin(turns, |keep|)
  {
    if turns == [] then []
    else if keep[Last(turns)[0]] then Surviving(Front(turns), keep) + [Renumber(keep, Last(turns))]
    else Surviving(Front(turns), keep)
  }

  lemma SurvivingSnoc(turns: seq<seq<nat>>, turn: seq<nat>, keep: seq<bool>)
    requires TurnsWithin(turns, |keep|) && turn != [] && Within(turn, |keep|)
    ensures TurnsWithin(turns + [turn], |keep|)
    ensures Surviving(turns + [turn], keep) ==
            if keep[turn[0]] then Surviving(turns, keep) + [Renumber(keep, turn)] else Surviving(turns, keep)
  {
    assert Front(turns + [turn]) == turns;
  }

  lemma {:induction false} SurvivingPrefix(turns: seq<seq<nat>>, keep: seq<bool>, n: nat)
    requires n <= |keep| && TurnsWithin(turns, n)
    ensures TurnsWithin(turns, |keep|)
    ensures Surviving(turns, keep[..n]) == Surviving(turns, keep)
  {
    if turns != [] {
      var turn := Last(turns);
      SurvivingPrefix(Front(turns), keep, n);
      assert Within(turn, n);
      forall k | 0 <= k < |turn| ensures Rank(keep[..n], true, turn[k]) == Rank(keep, true, turn[k]) {
        assert keep[..n][..turn[k]] == keep[..turn[k]];
      }
      assert Renumber(keep[..n], turn) == Renumber(keep, turn);
    }
  }

  /** The list of turns after one more message at position `n`. */
  function Extended(turns: seq<seq<nat>>, system: bool, glued: bool, n: nat): seq<seq<nat>> {
    if system then turns
    else if glued && turns != [] then Front(turns) + [Last(turns) + [n]]
    else turns + [[n]]
  }

  lemma TurnsSnoc(roles: seq<Role>)
    requires roles != []
    ensures var n := |roles| - 1;
            && TurnsOf(roles) == Extended(TurnsOf(Front(roles)), Last(roles).System?, Glued(roles, n), n)
            && (Glued(roles, n) ==> TurnsOf(Front(roles)) != [] && Last(TurnsOf(Front(roles))) == OpenTurn(Front(roles)) != [])
  {
    var n, before := |roles| - 1, Front(roles);
    OpenTurnStep(roles);
    LastIsGlued(roles);
    if Glued(roles, n) {
      assert ClosedTurns(before) + [OpenTurn(before)] == TurnsOf(before);
      assert Front(TurnsOf(before)) == ClosedTurns(before);
    } else if !Last(roles).System? {
      assert OpenTurn(roles) == [n];
      if OpenTurn(before) == [] {
        assert TurnsOf(before) == ClosedTurns(before) == ClosedTurns(roles);
      }
    }
  }

  /** Extending and dropping turns: the message goes or stays with its turn. */
  lemma SurvivingExtended(turns: seq<seq<nat>>, keep: seq<bool>, system: bool, glued: bool, n: nat)
    requires n < |keep| && TurnsWithin(turns, |keep|)
    requires glued ==> turns != [] && keep[Last(turns)[0]] == keep[n]
    requires system ==> keep[n]
    ensures TurnsWithin(Extended(turns, system, glued, n), |keep|)
    ensures Surviving(Extended(turns, system, glued, n), keep) ==
            if keep[n] then Extended(Surviving(turns, keep), system, glued, Rank(keep, true, n)) else Surviving(turns, keep)
  {
    if !system && glued {
      var front, last := Front(turns), Last(turns);
      assert turns == front + [last];
      SurvivingSnoc(front, last, keep);
      SurvivingSnoc(front, last + [n], keep);
      assert Renumber(keep, last + [n]) == Renumber(keep, last) + [Rank(keep, true, n)];
    } else if !system {
      SurvivingSnoc(turns, [n], keep);
      assert Renumber(keep, [n]) == [Rank(keep, true, n)];
    }
  }

  lemma TurnIsUniform(roles: seq<Role>, keep: seq<bool>, turn: seq<nat>)
    requires WholeTurns(roles, keep) && IsRun(roles, turn)
    ensures Within(turn, |keep|) && keep[Last(turn)] == keep[turn[0]]
  {
    RunIsUniform(roles, keep, turn[0], Last(turn));
  }

  /** The message that continues a turn is tagged like that turn. */
  lemma GluedToLastTurn(roles: seq<Role>, keep: seq<bool>)
    requires roles != [] && WholeTurns(roles, keep) && Glued(roles, |roles| - 1)
    ensures var before := TurnsOf(Front(roles));
            before != [] && Last(before) != [] && Within(Last(before), |keep|) && keep[Last(before)[0]] == Last(keep)
  {
    var front, turn := Front(roles), OpenTurn(Front(roles));
    TurnsSnoc(roles);
    TurnsAreRuns(front);
    WholeTurnsFront(roles, keep);
    TurnIsUniform(front, Front(keep), turn);
    assert Last(turn) == |roles| - 2;
  }

  /** If survivors are glued exactly as they were, the new partition is the list of surviving turns. */
  lemma {:induction false} StableTurnsSurvive(roles: seq<Role>, keep: seq<bool>)
    requires WholeTurns(roles, keep) && SystemsTagged(roles, keep, true) && Stable(roles, keep)
    ensures TurnsWithin(TurnsOf(roles), |roles|)
    ensures TurnsOf(Pick(roles, keep, true)) == Surviving(TurnsOf(roles), keep)
  {
    TurnsAreWithin(roles);
    if roles != [] {
      WholeTurnsFront(roles, keep);
      StableFront(roles, keep);
      StableTurnsSurvive(Front(roles), Front(keep));
      SurvivingPrefix(TurnsOf(Front(roles)), keep, |roles| - 1);
      NextMessage(roles, keep);
    }
  }

  lemma NextMessage(roles: seq<Role>, keep: seq<bool>)
    requires WholeTurns(roles, keep) && SystemsTagged(roles, keep, true) && Stable(roles, keep) && roles != []
    requires TurnsWithin(TurnsOf(roles), |roles|) && TurnsWithin(TurnsOf(Front(roles)), |roles|)
    requires TurnsOf(Pick(Front(roles), Front(keep), true)) == Surviving(TurnsOf(Front(roles)), keep)
    ensures TurnsOf(Pick(roles, keep, true)) == Surviving(TurnsOf(roles), keep)
  {
    var n := |roles| - 1;
    PickStep(roles, keep, true);
    TurnsSnoc(roles);
    if Glued(roles, n) {
      GluedToLastTurn(roles, keep);
    }
    SurvivingExtended(TurnsOf(Front(roles)), keep, Last(roles).System?, Glued(roles, n), n);
    if Last(keep) {
      LastIsStable(roles, keep);
      TurnsAppend(Pick(Front(roles), Front(keep), true), Last(roles));
    }
  }

  lemma StableFront(roles: seq<Role>, keep: seq<bool>)
    requires roles != [] && |keep| == |roles| && Stable(roles, keep)
    ensures Stable(Front(roles), Front(keep))
    ensures Last(keep) ==> StableAt(roles, keep, |roles| - 1)
  {
    forall j | 0 <= j < |roles| - 1 && Front(keep)[j] ensures StableAt(Front(roles), Front(keep), j) {
      assert StableAt(roles, keep, j);
      GluedPrefix(roles, |roles| - 1, j);
      assert Front(roles)[..j + 1] == roles[..j + 1] && Front(keep)[..j + 1] == keep[..j + 1];
    }
  }

  lemma TurnsAppend(roles: seq<Role>, r: Role)
    ensures TurnsOf(roles + [r]) == Extended(TurnsOf(roles), r.System?, Glued(roles + [r], |roles|), |roles|)
  {
    assert Front(roles + [r]) == roles;
    TurnsSnoc(roles + [r]);
  }

  lemma LastIsStable(roles: seq<Role>, keep: seq<bool>)
    requires roles != [] && |keep| == |roles| && Stable(roles, keep) && WholeTurns(roles, keep)
    requires Last(keep)
    ensures var n, thin := |roles| - 1, Pick(Front(roles), Front(keep), true);
            && Rank(keep, true, n) == |thin|
            && (Glued(thin + [Last(roles)], |thin|) <==> Glued(roles, n))
  {
    var n := |roles| - 1;
    StableFront(roles, keep);
    PickStep(roles, keep, true);
    assert roles[..n + 1] == roles && keep[..n + 1] == keep && keep[..n] == Front(keep);
    PickLength(Front(roles), Front(keep), Front(keep), true);
    FirstIsNotGlued(roles);
  }

  lemma FirstIsNotGlued(roles: seq<Role>)
    requires roles != []
    ensures !Glued(roles, 0)
  {}

  lemma {:induction false} SurvivingMember(turns: seq<seq<nat>>, keep: seq<bool>, turn: seq<nat>)
    requires TurnsWithin(turns, |keep|) && turn in turns
    ensures turn != [] && Within(turn, |keep|)
    ensures keep[turn[0]] ==> Renumber(keep, turn) in Surviving(turns, keep)
  {
    if turn != Last(turns) {
      assert turn in Front(turns);
      SurvivingMember(Front(turns), keep, turn);
    }
  }

  /** A survivor that did not continue a turn starts one. */
  lemma StartsTurn(roles: seq<Role>, j: nat) returns (turn: seq<nat>)
    requires j < |roles| && !roles[j].System? && !Glued(roles, j)
    ensures turn in TurnsOf(roles) && turn != [] && turn[0] == j
  {
    BodyHasTurn(roles, j);
    TurnsAreRuns(roles);
    var i :| 0 <= i < |TurnsOf(roles)| && j in TurnsOf(roles)[i];
    turn := TurnsOf(roles)[i];
    assert IsRun(roles, turn);
  }

  /** What an unstable survivor is: it starts a turn, but continues one among the survivors. */
  lemma UnstableIsMerged(roles: seq<Role>, keep: seq<bool>, j: nat)
    requires WholeTurns(roles, keep) && SystemsTagged(roles, keep, true)
    requires j < |roles| && keep[j] && !StableAt(roles, keep, j)
    ensures !roles[j].System? && !Glued(roles, j)
    ensures var thin, r := Pick(roles, keep, true), Rank(keep, true, j); r < |thin| && Glued(thin, r)
  {
    SurvivorsUpTo(roles, keep, j);
    FirstIsNotGlued(roles);
    var thin, r := Pick(roles, keep, true), Rank(keep, true, j);
    GluedPrefix(thin, r + 1, r);
    if Glued(roles, j) {
      SurvivingTurnsStayWhole(roles, keep, true, j);
    }
  }

  /** The survivors up to a kept position are the first survivors, that one last. */
  lemma SurvivorsUpTo(roles: seq<Role>, keep: seq<bool>, j: nat)
    requires j < |roles| == |keep| && keep[j]
    ensures var thin, r := Pick(roles, keep, true), Rank(keep, true, j);
            r < |thin| && thin[r] == roles[j] && Pick(roles[..j + 1], keep[..j + 1], true) == thin[..r + 1]
  {
    assert Front(roles[..j + 1]) == roles[..j] && Front(keep[..j + 1]) == keep[..j];
    PickStep(roles[..j + 1], keep[..j + 1], true);
    PickPrefix(roles, keep, true, j);
    PickPrefix(roles, keep, true, j + 1);
  }

  lemma MergedTurnIsNotThere(roles: seq<Role>, keep: seq<bool>, j: nat)
    requires WholeTurns(roles, keep) && SystemsTagged(roles, keep, true)
    requires j < |roles| && keep[j] && !StableAt(roles, keep, j)
    ensures TurnsWithin(TurnsOf(roles), |roles|)
    ensures TurnsOf(Pick(roles, keep, true)) != Surviving(TurnsOf(roles), keep)
  {
    TurnsAreWithin(roles);
    UnstableIsMerged(roles, keep, j);
    var turn := StartsTurn(roles, j);
    SurvivingMember(TurnsOf(roles), keep, turn);
    TurnsAreRuns(Pick(roles, keep, true));
    assert !IsRun(Pick(roles, keep, true), Renumber(keep, turn));
    assert Renumber(keep, turn) !in TurnsOf(Pick(roles, keep, true));
  }

  /**
   The key property of the partition: dropping whole turns and partitioning again gives exactly the turns that
   were not dropped. It holds for every choice of turns if and only if the history has no segment that opens with
   other kinds of message and an AI message and has a human message later.
   */
  lemma DroppingTurnsLeavesTheOthersIff(roles: seq<Role>)
    ensures TurnsWithin(TurnsOf(roles), |roles|)
    ensures (forall keep: seq<bool> :: WholeTurns(roles, keep) && SystemsTagged(roles, keep, true) ==>
              TurnsOf(Pick(roles, keep, true)) == Surviving(TurnsOf(roles), keep))
            <==> !Hazard(roles)
  {
    TurnsAreWithin(roles);
    if Hazard(roles) {
      var keep, j := HazardMergesTurns(roles);
      MergedTurnIsNotThere(roles, keep, j);
    } else {
      RepartitionIsExactIffNoHazard(roles);
      forall keep: seq<bool> | WholeTurns(roles, keep) && SystemsTagged(roles, keep, true)
        ensures TurnsOf(Pick(roles, keep, true)) == Surviving(TurnsOf(roles), keep)
      {
        StableTurnsSurvive(roles, keep);
      }
    }
  }
}
