/** Stored chat messages. `Other` stands for every kind besides human, AI and system (tool messages, say). */
module Messages {
  import opened Sequences

  datatype Role = Human | AI | System | Other

  datatype Message = Message(id: Option<string>, role: Role, text: string)

  function Roles(ms: seq<Message>): (roles: seq<Role>)
    ensures |roles| == |ms|
    ensures forall i :: 0 <= i < |ms| ==> roles[i] == ms[i].role
  {
    seq(|ms|, i requires 0 <= i < |ms| => ms[i].role)
  }
}

/**
 Grouping a history into turns. A list position stands for the message object found there: the
 source pairs every message with its index and keeps sets of object identities.
 */
module Turns {
  import opened Messages
  import opened Sequences

  /** What the scan needs to know about the turn it is collecting. */
  datatype Open = Open(size: nat, hasHuman: bool, hasAI: bool)

  const EMPTY := Open(0, false, false)

  /** Does a message of role `r` close the turn being collected and start a new one? */
  predicate Cuts(open: Open, r: Role) {
    open.size > 0 && ((r.Human? && open.hasAI) || (r.AI? && !open.hasHuman))
  }

  /** Is the collected turn handed over when a message of role `r` arrives? */
  predicate Closes(open: Open, r: Role) {
    open.size > 0 && (r.System? || Cuts(open, r))
  }

  function Advance(open: Open, r: Role): Open {
    if r.System? then EMPTY
    else
      var kept := if Cuts(open, r) then EMPTY else open;
      Open(kept.size + 1, kept.hasHuman || r.Human?, kept.hasAI || r.AI?)
  }

  function OpenAfter(roles: seq<Role>): (open: Open)
    ensures open.size <= |roles|
  {
    if roles == [] then EMPTY else Advance(OpenAfter(Front(roles)), Last(roles))
  }

  /** Position `i` continues the turn of position `i - 1`. */
  predicate Glued(roles: seq<Role>, i: nat)
    requires i < |roles|
  {
    !roles[i].System? && OpenAfter(roles[..i]).size > 0 && !Cuts(OpenAfter(roles[..i]), roles[i])
  }

  function Positions(lo: nat, hi: nat): (ps: seq<nat>)
    requires lo <= hi
    ensures |ps| == hi - lo
    ensures forall k :: 0 <= k < |ps| ==> ps[k] == lo + k
  {
    seq(hi - lo, k requires 0 <= k < hi - lo => lo + k)
  }

  function OpenTurn(roles: seq<Role>): seq<nat> {
    Positions(|roles| - OpenAfter(roles).size, |roles|)
  }

  function ClosedTurns(roles: seq<Role>): seq<seq<nat>> {
    if roles == [] then []
    else if Closes(OpenAfter(Front(roles)), Last(roles)) then ClosedTurns(Front(roles)) + [OpenTurn(Front(roles))]
    else ClosedTurns(Front(roles))
  }

  function TurnsOf(roles: seq<Role>): seq<seq<nat>> {
    ClosedTurns(roles) + if OpenTurn(roles) == [] then [] else [OpenTurn(roles)]
  }

  function SystemPositions(roles: seq<Role>): seq<nat> {
    if roles == [] then []
    else SystemPositions(Front(roles)) + if Last(roles).System? then [|roles| - 1] else []
  }

  function BodyPositions(roles: seq<Role>): seq<nat> {
    if roles == [] then []
    else BodyPositions(Front(roles)) + if Last(roles).System? then [] else [|roles| - 1]
  }

  // ----- The scan

  /** The flags of the collected turn are what the source recomputes with `any` and `all`. */
  lemma {:induction false} OpenFlags(roles: seq<Role>)
    ensures OpenAfter(roles).hasHuman <==> exists k :: k in OpenTurn(roles) && roles[k].Human?
    ensures OpenAfter(roles).hasAI <==> exists k :: k in OpenTurn(roles) && roles[k].AI?
    ensures forall k :: k in OpenTurn(roles) ==> 0 <= k < |roles| && !roles[k].System?
  {
    if roles != [] {
      var n := |roles| - 1;
      var before := Front(roles);
      OpenFlags(before);
      if !roles[n].System? {
        var kept := if Cuts(OpenAfter(before), roles[n]) then [] else OpenTurn(before);
        assert OpenTurn(roles) == kept + [n];
        assert n in OpenTurn(roles);
        assert forall k :: k in OpenTurn(roles) <==> k in kept || k == n;
        assert forall k :: k in kept ==> roles[k] == before[k];
      }
    }
  }

  /** One step of the scan. */
  lemma OpenTurnStep(roles: seq<Role>)
    requires roles != []
    ensures OpenTurn(roles) ==
            if Last(roles).System? then []
            else if Cuts(OpenAfter(Front(roles)), Last(roles)) then [|roles| - 1]
            else OpenTurn(Front(roles)) + [|roles| - 1]
  {
    var size := OpenAfter(Front(roles)).size;
    assert OpenAfter(roles).size ==
           if Last(roles).System? then 0 else if Cuts(OpenAfter(Front(roles)), Last(roles)) then 1 else size + 1;
  }

  /** Does some message at these positions have the role? */
  predicate AnyWithRole(messages: seq<Message>, positions: seq<nat>, role: Role)
    requires forall k :: k in positions ==> k < |messages|
  {
    exists k :: k in positions && messages[k].role == role
  }

  /** `Cuts` is the pair of tests the source makes on the collected messages. */
  lemma CutTest(messages: seq<Message>, i: nat)
    requires i < |messages|
    ensures forall k :: k in OpenTurn(Roles(messages)[..i]) ==> k < i
    ensures Cuts(OpenAfter(Roles(messages)[..i]), messages[i].role) <==>
            var current := OpenTurn(Roles(messages)[..i]);
            && current != []
            && ((messages[i].role.Human? && AnyWithRole(messages, current, AI)) ||
                (messages[i].role.AI? && !AnyWithRole(messages, current, Human)))
  {
    OpenFlags(Roles(messages)[..i]);
    assert forall k :: 0 <= k < i ==> Roles(messages)[..i][k] == messages[k].role;
  }

  /** What one more message does to each of the three lists. */
  lemma ScanStep(roles: seq<Role>, i: nat)
    requires i < |roles|
    ensures var r, open, n := roles[i], OpenAfter(roles[..i]), roles[..i + 1];
            && SystemPositions(n) == (if r.System? then SystemPositions(roles[..i]) + [i] else SystemPositions(roles[..i]))
            && ClosedTurns(n) ==
               (if Closes(open, r) then ClosedTurns(roles[..i]) + [OpenTurn(roles[..i])] else ClosedTurns(roles[..i]))
            && OpenTurn(n) == (if r.System? then [] else if Cuts(open, r) then [i] else OpenTurn(roles[..i]) + [i])
            && (open.size == 0 <==> OpenTurn(roles[..i]) == [])
  {
    assert Front(roles[..i + 1]) == roles[..i] && Last(roles[..i + 1]) == roles[i];
    OpenTurnStep(roles[..i + 1]);
    assert SystemPositions(roles[..i]) + [] == SystemPositions(roles[..i]);
  }

  method PartitionTurns(messages: seq<Message>) returns (systems: seq<nat>, turns: seq<seq<nat>>)
    ensures systems == SystemPositions(Roles(messages))
    ensures turns == TurnsOf(Roles(messages))
  {
    ghost var roles := Roles(messages);
    systems, turns := [], [];
    var current: seq<nat> := [];
    for i := 0 to |messages|
      invariant systems == SystemPositions(roles[..i])
      invariant turns == ClosedTurns(roles[..i])
      invariant current == OpenTurn(roles[..i])
      invariant forall k :: k in current ==> k < i
    {
      ScanStep(roles, i);
      CutTest(messages, i);
      var role := messages[i].role;
      if role.System? {
        if current != [] {
          turns := turns + [current];
          current := [];
        }
        systems := systems + [i];
      } else if role.Human? && current != [] && AnyWithRole(messages, current, AI) {
        turns := turns + [current];
        current := [i];
      } else if role.AI? && current != [] && !AnyWithRole(messages, current, Human) {
        turns := turns + [current];
        current := [i];
      } else {
        current := current + [i];
      }
    }
    assert roles[..|messages|] == roles;
    if current != [] {
      turns := turns + [current];
    }
  }

  // ----- What the turns are

  /** The turns, laid end to end, are exactly the non-system positions in order: nothing lost, repeated or moved. */
  lemma TurnsTile(roles: seq<Role>)
    ensures Flatten(TurnsOf(roles)) == BodyPositions(roles)
    ensures [] !in TurnsOf(roles)
  {
    ScanTiles(roles);
    FlattenOne(ClosedTurns(roles), OpenTurn(roles));
    if OpenTurn(roles) == [] {
      assert TurnsOf(roles) == ClosedTurns(roles);
    }
  }

  lemma FlattenOne<T>(xss: seq<seq<T>>, xs: seq<T>)
    ensures Flatten(xss + [xs]) == Flatten(xss) + xs
  {
    assert Front(xss + [xs]) == xss;
  }

  lemma {:induction false} ScanTiles(roles: seq<Role>)
    ensures Flatten(ClosedTurns(roles)) + OpenTurn(roles) == BodyPositions(roles)
    ensures [] !in ClosedTurns(roles)
  {
    if roles == [] {
      assert OpenTurn(roles) == [];
    } else {
      var before := Front(roles);
      ScanTiles(before);
      OpenTurnStep(roles);
      if Closes(OpenAfter(before), Last(roles)) {
        FlattenOne(ClosedTurns(before), OpenTurn(before));
      } else if Last(roles).System? {
        assert OpenTurn(before) == [];
      }
    }
  }

  /** A maximal run of glued positions: everything after the first is glued, the first is not. */
  ghost predicate IsRun(roles: seq<Role>, turn: seq<nat>) {
    && turn != []
    && turn[0] <= Last(turn) < |roles|
    && turn == Positions(turn[0], Last(turn) + 1)
    && !Glued(roles, turn[0])
    && !roles[turn[0]].System?
    && forall k :: turn[0] < k <= Last(turn) ==> Glued(roles, k)
  }

  lemma GluedPrefix(roles: seq<Role>, n: nat, i: nat)
    requires i < n <= |roles|
    ensures Glued(roles[..n], i) == Glued(roles, i)
  {
    assert roles[..n][..i] == roles[..i];
  }

  lemma IsRunPrefix(roles: seq<Role>, n: nat, turn: seq<nat>)
    requires n <= |roles| && IsRun(roles[..n], turn)
    ensures IsRun(roles, turn)
  {
    forall k | turn[0] <= k <= Last(turn) ensures Glued(roles[..n], k) == Glued(roles, k) {
      GluedPrefix(roles, n, k);
    }
  }

  /** Every turn is a maximal run of glued positions, so "same turn" can be read off `Glued` alone. */
  lemma {:induction false} TurnsAreRuns(roles: seq<Role>)
    ensures forall t :: t in ClosedTurns(roles) ==> IsRun(roles, t)
    ensures OpenTurn(roles) != [] ==> IsRun(roles, OpenTurn(roles))
    ensures forall t :: t in TurnsOf(roles) ==> IsRun(roles, t)
  {
    if roles != [] {
      var n := |roles| - 1;
      var before := Front(roles);
      assert before == roles[..n];
      TurnsAreRuns(before);
      forall t | t in ClosedTurns(roles) ensures IsRun(roles, t) {
        IsRunPrefix(roles, n, t);
      }
      if !roles[n].System? {
        if OpenTurn(before) != [] {
          IsRunPrefix(roles, n, OpenTurn(before));
        }
        var lo := |roles| - OpenAfter(roles).size;
        assert OpenTurn(roles)[0] == lo && Last(OpenTurn(roles)) == n;
        if Glued(roles, n) {
          assert OpenTurn(before) != [] && OpenTurn(before)[0] == lo && Last(OpenTurn(before)) == n - 1;
        }
      }
    }
  }

  /** The turn ends before `bound`, at a place where gluing ends. */
  ghost predicate EndsCleanly(roles: seq<Role>, turn: seq<nat>, bound: nat) {
    && turn != []
    && Last(turn) < bound <= |roles|
    && (Last(turn) + 1 < |roles| ==> !Glued(roles, Last(turn) + 1))
  }

  ghost predicate InOrder(turns: seq<seq<nat>>) {
    && [] !in turns
    && forall i, j :: 0 <= i < j < |turns| ==> Last(turns[i]) < turns[j][0]
  }

  lemma {:induction false} ClosedTurnsEnd(roles: seq<Role>)
    ensures forall t :: t in ClosedTurns(roles) ==> EndsCleanly(roles, t, |roles| - OpenAfter(roles).size)
  {
    if roles != [] {
      var n := |roles| - 1;
      var before := Front(roles);
      assert before == roles[..n];
      ClosedTurnsEnd(before);
      forall t | t in ClosedTurns(roles) ensures EndsCleanly(roles, t, |roles| - OpenAfter(roles).size) {
        if t in ClosedTurns(before) {
          assert EndsCleanly(before, t, n - OpenAfter(before).size);
          if Last(t) + 1 < n {
            GluedPrefix(roles, n, Last(t) + 1);
          }
        } else {
          assert Closes(OpenAfter(before), roles[n]) && t == OpenTurn(before);
          assert Last(t) == n - 1;
        }
      }
    }
  }

  lemma {:induction false} ClosedTurnsInOrder(roles: seq<Role>)
    ensures InOrder(ClosedTurns(roles))
  {
    if roles != [] {
      ClosedTurnsInOrder(Front(roles));
      AppendInOrder(Front(roles));
    }
  }

  lemma AppendInOrder(roles: seq<Role>)
    requires InOrder(ClosedTurns(roles))
    ensures OpenTurn(roles) != [] ==> InOrder(ClosedTurns(roles) + [OpenTurn(roles)])
  {
    ClosedTurnsEnd(roles);
    var closed, open := ClosedTurns(roles), OpenTurn(roles);
    if open != [] {
      forall i, j | 0 <= i < j < |closed| + 1 ensures Last((closed + [open])[i]) < (closed + [open])[j][0] {
        assert closed[i] in closed;
        assert EndsCleanly(roles, closed[i], |roles| - OpenAfter(roles).size);
      }
    }
  }

  /** Turns come in order, without overlap, and each ends where gluing ends. */
  lemma TurnsInOrder(roles: seq<Role>)
    ensures InOrder(TurnsOf(roles))
    ensures forall t :: t in TurnsOf(roles) ==> EndsCleanly(roles, t, |roles|)
  {
    ClosedTurnsInOrder(roles);
    ClosedTurnsEnd(roles);
    AppendInOrder(roles);
    assert TurnsOf(roles) == if OpenTurn(roles) == [] then ClosedTurns(roles) else ClosedTurns(roles) + [OpenTurn(roles)];
    if OpenTurn(roles) != [] {
      assert Last(OpenTurn(roles)) == |roles| - 1;
    }
    forall t | t in TurnsOf(roles) ensures EndsCleanly(roles, t, |roles|) {
      if t in ClosedTurns(roles) {
        assert EndsCleanly(roles, t, |roles| - OpenAfter(roles).size);
      }
    }
  }

  /** Roles of a history that holds nothing but human, AI and system messages. */
  predicate Plain(roles: seq<Role>) {
    forall i :: 0 <= i < |roles| ==> !roles[i].Other?
  }

  /** A human message somewhere before `i` with no system message in between. */
  ghost predicate HumanEarlierInSegment(roles: seq<Role>, i: nat)
    requires i <= |roles|
  {
    exists h :: 0 <= h < i && roles[h].Human? && forall k :: h < k < i ==> !roles[k].System?
  }

  lemma {:induction false} OpenOfPlain(roles: seq<Role>)
    requires Plain(roles)
    ensures OpenAfter(roles).size == 0 <==> roles == [] || Last(roles).System?
    ensures OpenAfter(roles).hasHuman <==> HumanEarlierInSegment(roles, |roles|)
    ensures OpenAfter(roles).size > 0 ==> OpenAfter(roles).hasAI == Last(roles).AI?
  {
    if roles != [] {
      var n := |roles| - 1;
      var before := Front(roles);
      OpenOfPlain(before);
      assert forall k :: 0 <= k < n ==> before[k] == roles[k];
      if roles[n].AI? || roles[n].Human? {
        assert HumanEarlierInSegment(before, n) <==> HumanEarlierInSegment(roles, n);
        if HumanEarlierInSegment(roles, n) {
          var h :| 0 <= h < n && roles[h].Human? && forall k :: h < k < n ==> !roles[k].System?;
          assert HumanEarlierInSegment(roles, |roles|);
        }
        if roles[n].Human? {
          assert HumanEarlierInSegment(roles, |roles|);
        }
      }
    }
  }

  /**
   Turn membership without the scan: a human message joins only a human message right before it, an AI
   message joins whenever the segment since the last system message has had a human one.
   */
  lemma GluedInPlainHistory(roles: seq<Role>, i: nat)
    requires Plain(roles) && i < |roles|
    ensures Glued(roles, i) <==>
            && i > 0
            && ((roles[i].Human? && roles[i - 1].Human?) || (roles[i].AI? && HumanEarlierInSegment(roles, i)))
  {
    OpenOfPlain(roles[..i]);
    assert HumanEarlierInSegment(roles[..i], i) <==> HumanEarlierInSegment(roles, i) by {
      assert forall k :: 0 <= k < i ==> roles[..i][k] == roles[k];
    }
  }
}
