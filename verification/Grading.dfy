/** Compacting long course answers, and grading every turn of a history keep, summarise or discard. */
module Grading {
  import opened Messages
  import opened Sequences
  import opened Turns
  import opened TurnStability
  import opened Window
  import opened BudgetTrim

  datatype Settings = Settings(
    tokenBudget: int, alwaysKeepRecent: int, discardScore: real, summarizeScore: real, maxMessages: int)

  /** What compression calls but does not define: tokenizer, scorer, text compaction and the summary texts. */
  datatype Services = Services(
    countTokens: Tokenizer,
    compactText: string -> string,
    score: (Message, seq<Message>) -> real,
    summaryTokens: string -> nat,
    summarize: (seq<Message>, string) -> string,
    fold: (string, seq<Message>) -> string,
    finalize: string -> string)

  /** Where a message ends up. The last two are the overflow of the first and of the second budget pass. */
  datatype Bucket = Keep | Discard | Summarize | FirstTrim | SecondTrim

  // ----- Compaction

  function CompactMessage(svc: Services, m: Message): (c: Message)
    ensures c.id == m.id && c.role == m.role
    ensures !m.role.AI? ==> c == m
    ensures m.role.AI? ==> c.text == svc.compactText(m.text)
  {
    if m.role.AI? then m.(text := svc.compactText(m.text)) else m
  }

  function Compacted(svc: Services, ms: seq<Message>): (cs: seq<Message>)
    ensures |cs| == |ms| && Roles(cs) == Roles(ms)
    ensures forall i :: 0 <= i < |ms| ==> cs[i] == CompactMessage(svc, ms[i])
  {
    seq(|ms|, i requires 0 <= i < |ms| => CompactMessage(svc, ms[i]))
  }

  /** Compaction builds a new message only when it changes the text. */
  predicate Rewritten(svc: Services, m: Message) {
    CompactMessage(svc, m) != m
  }

  // ----- The turn around a position

  function TurnLo(roles: seq<Role>, i: nat): (lo: nat)
    requires i < |roles|
    ensures lo <= i
  {
    if i == 0 || !Glued(roles, i) then i else TurnLo(roles, i - 1)
  }

  function TurnHi(roles: seq<Role>, i: nat): (hi: nat)
    requires i < |roles|
    ensures i <= hi < |roles|
    decreases |roles| - i
  {
    if i + 1 < |roles| && Glued(roles, i + 1) then TurnHi(roles, i + 1) else i
  }

  function TurnAround(roles: seq<Role>, i: nat): (turn: seq<nat>)
    requires i < |roles|
    ensures turn != [] && Within(turn, |roles|)
  {
    Positions(TurnLo(roles, i), TurnHi(roles, i) + 1)
  }

  lemma {:induction false} TurnLoOfRun(roles: seq<Role>, lo: nat, i: nat)
    requires lo <= i < |roles| && !Glued(roles, lo)
    requires forall k :: lo < k <= i ==> Glued(roles, k)
    ensures TurnLo(roles, i) == lo
  {
    if lo < i {
      TurnLoOfRun(roles, lo, i - 1);
    }
  }

  lemma {:induction false} TurnHiOfRun(roles: seq<Role>, hi: nat, i: nat)
    requires i <= hi < |roles| && (hi + 1 < |roles| ==> !Glued(roles, hi + 1))
    requires forall k :: i < k <= hi ==> Glued(roles, k)
    ensures TurnHi(roles, i) == hi
    decreases hi - i
  {
    if i < hi {
      TurnHiOfRun(roles, hi, i + 1);
    }
  }

  /** The turn found by walking outwards from a position is the turn the partition lists. */
  lemma TurnAroundIsTurn(roles: seq<Role>, turn: seq<nat>, i: nat)
    requires turn in TurnsOf(roles) && i in turn
    ensures i < |roles| && TurnAround(roles, i) == turn && !roles[i].System?
  {
    TurnsAreRuns(roles);
    TurnsInOrder(roles);
    assert IsRun(roles, turn) && EndsCleanly(roles, turn, |roles|);
    assert turn[0] <= i <= Last(turn);
    TurnLoOfRun(roles, turn[0], i);
    TurnHiOfRun(roles, Last(turn), i);
  }

  // ----- Grading

  function TurnScore(svc: Services, ms: seq<Message>, turn: seq<nat>): real
    requires Within(turn, |ms|)
  {
    if turn == [] then 0.0
    else
      var last := svc.score(ms[Last(turn)], ms);
      if |turn| == 1 then last
      else
        var rest := TurnScore(svc, ms, Front(turn));
        if rest < last then last else rest
  }

  function RecentStart(n: nat, alwaysKeepRecent: int): int {
    if n - alwaysKeepRecent < 0 then 0 else n - alwaysKeepRecent
  }

  function Grade(svc: Services, s: Settings, ms: seq<Message>, turn: seq<nat>): Bucket
    requires turn != [] && Within(turn, |ms|)
  {
    if Last(turn) >= RecentStart(|ms|, s.alwaysKeepRecent) then Keep
    else if TurnScore(svc, ms, turn) < s.discardScore then Discard
    else if TurnScore(svc, ms, turn) < s.summarizeScore then Summarize
    else Keep
  }

  /** The bucket of every position after grading: its turn's grade, and Keep for system messages. */
  function GradeTags(svc: Services, s: Settings, ms: seq<Message>): (tags: seq<Bucket>)
    ensures |tags| == |ms|
  {
    seq(|ms|, i requires 0 <= i < |ms| =>
      if ms[i].role.System? then Keep else Grade(svc, s, ms, TurnAround(Roles(ms), i)))
  }

  lemma GluedNeighbour(roles: seq<Role>, i: nat)
    requires 0 < i < |roles| && Glued(roles, i)
    ensures !roles[i - 1].System? && TurnAround(roles, i) == TurnAround(roles, i - 1)
  {
    assert Last(roles[..i]) == roles[i - 1];
  }

  lemma SameGrade(svc: Services, s: Settings, ms: seq<Message>, i: nat)
    requires 0 < i < |ms| && Glued(Roles(ms), i)
    ensures GradeTags(svc, s, ms)[i] == GradeTags(svc, s, ms)[i - 1]
  {
    var turn, before := TurnAround(Roles(ms), i), TurnAround(Roles(ms), i - 1);
    GluedNeighbour(Roles(ms), i);
    GradeTagAt(svc, s, ms, i, turn);
    GradeTagAt(svc, s, ms, i - 1, before);
  }

  lemma GradeTagAt(svc: Services, s: Settings, ms: seq<Message>, i: nat, turn: seq<nat>)
    requires i < |ms| && !ms[i].role.System? && turn == TurnAround(Roles(ms), i)
    ensures turn != [] && Within(turn, |ms|) && GradeTags(svc, s, ms)[i] == Grade(svc, s, ms, turn)
  {}

  lemma GradesAreWhole(svc: Services, s: Settings, ms: seq<Message>)
    ensures WholeTurns(Roles(ms), GradeTags(svc, s, ms))
    ensures SystemsTagged(Roles(ms), GradeTags(svc, s, ms), Keep)
  {
    var tags := GradeTags(svc, s, ms);
    forall i | 0 < i < |ms| && Glued(Roles(ms), i) ensures tags[i] == tags[i - 1] {
      SameGrade(svc, s, ms, i);
    }
  }

  lemma TurnHasGrade(svc: Services, s: Settings, ms: seq<Message>, turn: seq<nat>, p: nat)
    requires turn in TurnsOf(Roles(ms)) && p in turn
    ensures p < |ms| && turn != [] && Within(turn, |ms|)
    ensures GradeTags(svc, s, ms)[p] == Grade(svc, s, ms, turn)
  {
    TurnAroundIsTurn(Roles(ms), turn, p);
  }

  /** Messages of recent positions, and of the turns they belong to, are never graded away. */
  lemma RecentGradedKeep(svc: Services, s: Settings, ms: seq<Message>, i: nat)
    requires i < |ms| && i >= |ms| - s.alwaysKeepRecent
    ensures GradeTags(svc, s, ms)[i] == Keep
  {}

  // ----- The grades in plain terms

  /** A turn's score is reached by one of its messages and by no message exceeded. */
  lemma {:induction false} ScoreIsBest(svc: Services, ms: seq<Message>, turn: seq<nat>)
    requires turn != [] && Within(turn, |ms|)
    ensures exists q :: q in turn && svc.score(ms[q], ms) == TurnScore(svc, ms, turn)
    ensures forall q :: q in turn ==> svc.score(ms[q], ms) <= TurnScore(svc, ms, turn)
  {
    var q := Last(turn);
    assert turn == Front(turn) + [q] && q in turn;
    if |turn| > 1 {
      ScoreIsBest(svc, ms, Front(turn));
    }
  }

  lemma ScoreBelowIff(svc: Services, ms: seq<Message>, turn: seq<nat>, bar: real)
    requires turn != [] && Within(turn, |ms|)
    ensures TurnScore(svc, ms, turn) < bar <==> forall q :: q in turn ==> svc.score(ms[q], ms) < bar
  {
    ScoreIsBest(svc, ms, turn);
  }

  /**
   The grade of every message of a turn, from the scores of all messages of the turn. A turn that reaches into
   the newest `alwaysKeepRecent` positions stays. Any other is discarded if no message of it reaches the lower
   bar, summarised if one does but none reaches the upper bar, and kept otherwise.
   */
  lemma GradeFromScores(svc: Services, s: Settings, ms: seq<Message>, turn: seq<nat>, p: nat)
    requires turn in TurnsOf(Roles(ms)) && p in turn
    ensures p < |ms| && turn != [] && Within(turn, |ms|)
    ensures var recent := turn[|turn| - 1] >= |ms| - s.alwaysKeepRecent;
            var tag := GradeTags(svc, s, ms)[p];
            && (tag == Discard <==> !recent && forall q :: q in turn ==> svc.score(ms[q], ms) < s.discardScore)
            && (tag == Summarize <==>
                  && !recent
                  && (exists q :: q in turn && svc.score(ms[q], ms) >= s.discardScore)
                  && (forall q :: q in turn ==> svc.score(ms[q], ms) < s.summarizeScore))
            && (tag == Discard || tag == Summarize || tag == Keep)
  {
    TurnHasGrade(svc, s, ms, turn, p);
    ScoreBelowIff(svc, ms, turn, s.discardScore);
    ScoreBelowIff(svc, ms, turn, s.summarizeScore);
  }

  // ----- The grading loop

  /** Positions that were graded out of the history, and what the summary is told about them. */
  function GradedOut(tags: seq<Bucket>): (mask: seq<bool>)
    ensures |mask| == |tags|
  {
    seq(|tags|, i requires 0 <= i < |tags| => tags[i] != Keep)
  }

  function FactSource(svc: Services, ms: seq<Message>, tags: seq<Bucket>): (facts: seq<Message>)
    requires |tags| == |ms|
    ensures |facts| == |ms|
  {
    seq(|ms|, i requires 0 <= i < |ms| => if tags[i] == Discard then ms[i] else CompactMessage(svc, ms[i]))
  }

  /** Kept positions whose text compaction changed. */
  function RewrittenKept(svc: Services, ms: seq<Message>, tags: seq<Bucket>): (mask: seq<bool>)
    requires |tags| == |ms|
    ensures |mask| == |ms|
  {
    seq(|ms|, i requires 0 <= i < |ms| => tags[i] == Keep && Rewritten(svc, ms[i]))
  }

  /** The table gains exactly the rewritten messages of the turn. */
  ghost predicate AddsRewritten(svc: Services, ms: seq<Message>, turn: seq<nat>, table: map<nat, Message>,
                                table': map<nat, Message>)
    requires Within(turn, |ms|)
  {
    && (forall p :: p in table' <==> p in table || (p in turn && Rewritten(svc, ms[p])))
    && (forall p :: p in turn && Rewritten(svc, ms[p]) ==> p in table' && table'[p] == CompactMessage(svc, ms[p]))
    && (forall p :: p in table && !(p in turn && Rewritten(svc, ms[p])) ==> p in table' && table'[p] == table[p])
  }

  lemma AddOneRewritten(svc: Services, ms: seq<Message>, turn: seq<nat>, p: nat, table: map<nat, Message>,
                        table': map<nat, Message>)
    requires Within(turn, |ms|) && p < |ms| && AddsRewritten(svc, ms, turn, table, table')
    ensures Within(turn + [p], |ms|)
    ensures AddsRewritten(svc, ms, turn + [p], table,
                          if Rewritten(svc, ms[p]) then table'[p := CompactMessage(svc, ms[p])] else table')
  {
    assert forall q :: q in turn + [p] <==> q in turn || q == p;
  }

  method CompactTurn(svc: Services, messages: seq<Message>, turn: seq<nat>, compactBy: map<nat, Message>)
    returns (compacted: seq<Message>, compactBy': map<nat, Message>)
    requires Within(turn, |messages|)
    ensures compacted == At(Compacted(svc, messages), turn)
    ensures AddsRewritten(svc, messages, turn, compactBy, compactBy')
  {
    compacted, compactBy' := [], compactBy;
    for k := 0 to |turn|
      invariant compacted == At(Compacted(svc, messages), turn)[..k]
      invariant AddsRewritten(svc, messages, turn[..k], compactBy, compactBy')
    {
      var stub := CompactMessage(svc, messages[turn[k]]);
      compacted := compacted + [stub];
      assert turn[..k + 1] == turn[..k] + [turn[k]];
      AddOneRewritten(svc, messages, turn[..k], turn[k], compactBy, compactBy');
      if stub != messages[turn[k]] {
        compactBy' := compactBy'[turn[k] := stub];
      }
    }
    assert turn[..|turn|] == turn;
  }

  /** After `t` turns, the identity set holds the system messages and the turns graded Keep, and nothing else. */
  ghost predicate KeepSeen(tags: seq<Bucket>, turns: seq<seq<nat>>, t: nat, systems: seq<nat>, keepOrig: set<nat>)
    requires t <= |turns|
  {
    && (forall p :: p in keepOrig ==> p < |tags| && tags[p] == Keep)
    && (forall p :: p in systems ==> p in keepOrig)
    && (forall j, p :: 0 <= j < t && p in turns[j] && p < |tags| && tags[p] == Keep ==> p in keepOrig)
  }

  /** After `t` turns, the compaction table holds rewritten messages only, and all those of turns not discarded. */
  ghost predicate CompactSeen(svc: Services, ms: seq<Message>, tags: seq<Bucket>, turns: seq<seq<nat>>, t: nat,
                              compactBy: map<nat, Message>)
    requires t <= |turns| && |tags| == |ms|
  {
    && (forall p :: p in compactBy ==> p < |ms| && Rewritten(svc, ms[p]) && compactBy[p] == CompactMessage(svc, ms[p]))
    && (forall j, p :: 0 <= j < t && p in turns[j] && p < |ms| && tags[p] != Discard && Rewritten(svc, ms[p]) ==>
          p in compactBy)
  }

  /** What one more turn adds to each of the lists, given its grade. */
  lemma GradedTurn(svc: Services, s: Settings, ms: seq<Message>, t: nat)
    requires t < |TurnsOf(Roles(ms))|
    ensures var turns, tags, cs := TurnsOf(Roles(ms)), GradeTags(svc, s, ms), Compacted(svc, ms);
            var facts, out := FactSource(svc, ms, tags), GradedOut(tags);
            && TurnsWithin(turns, |ms|) && turns[t] != [] && Within(turns[t], |ms|)
            && var g := Grade(svc, s, ms, turns[t]);
            && (forall p :: p in turns[t] ==> tags[p] == g)
            && TaggedTurn(cs, turns[t], tags, Summarize) == (if g == Summarize then At(cs, turns[t]) else [])
            && TaggedTurn(ms, turns[t], tags, Discard) == (if g == Discard then At(ms, turns[t]) else [])
            && TaggedTurn(facts, turns[t], out, true) ==
               (if g == Keep then [] else if g == Discard then At(ms, turns[t]) else At(cs, turns[t]))
  {
    var turns, tags, cs := TurnsOf(Roles(ms)), GradeTags(svc, s, ms), Compacted(svc, ms);
    TurnsAreWithin(Roles(ms));
    var g := Grade(svc, s, ms, turns[t]);
    forall p | p in turns[t] ensures p < |ms| && tags[p] == g {
      TurnHasGrade(svc, s, ms, turns[t], p);
    }
    FactsOfTurn(svc, ms, tags, turns[t], g);
  }

  /** What the summary is told of one turn: nothing if it stays, its own text if discarded, else the compacted one. */
  lemma FactsOfTurn(svc: Services, ms: seq<Message>, tags: seq<Bucket>, turn: seq<nat>, g: Bucket)
    requires |tags| == |ms| && turn != [] && Within(turn, |ms|) && forall p :: p in turn ==> p < |ms| && tags[p] == g
    ensures var cs, facts, out := Compacted(svc, ms), FactSource(svc, ms, tags), GradedOut(tags);
            && TaggedTurn(cs, turn, tags, Summarize) == (if g == Summarize then At(cs, turn) else [])
            && TaggedTurn(ms, turn, tags, Discard) == (if g == Discard then At(ms, turn) else [])
            && TaggedTurn(facts, turn, out, true) ==
               (if g == Keep then [] else if g == Discard then At(ms, turn) else At(cs, turn))
  {
    var cs, facts := Compacted(svc, ms), FactSource(svc, ms, tags);
    assert turn[0] in turn;
    forall k | 0 <= k < |turn| ensures facts[turn[k]] == (if g == Discard then ms else cs)[turn[k]] {
      assert turn[k] in turn;
    }
    assert At(facts, turn) == At(if g == Discard then ms else cs, turn);
  }

  lemma KeepSeenStep(tags: seq<Bucket>, turns: seq<seq<nat>>, t: nat, systems: seq<nat>, keepOrig: set<nat>, g: Bucket)
    requires t < |turns| && KeepSeen(tags, turns, t, systems, keepOrig)
    requires Within(turns[t], |tags|) && forall p :: p in turns[t] ==> p < |tags| && tags[p] == g
    ensures KeepSeen(tags, turns, t + 1, systems, if g == Keep then keepOrig + (set p | p in turns[t]) else keepOrig)
  {}

  lemma CompactSeenStep(svc: Services, ms: seq<Message>, tags: seq<Bucket>, turns: seq<seq<nat>>, t: nat,
                        compactBy: map<nat, Message>, compactBy': map<nat, Message>, g: Bucket)
    requires t < |turns| && |tags| == |ms| && CompactSeen(svc, ms, tags, turns, t, compactBy)
    requires Within(turns[t], |tags|) && forall p :: p in turns[t] ==> p < |tags| && tags[p] == g
    requires if g == Discard then compactBy' == compactBy else AddsRewritten(svc, ms, turns[t], compactBy, compactBy')
    ensures CompactSeen(svc, ms, tags, turns, t + 1, compactBy')
  {}

  /** The accumulators of the grading loop. */
  datatype Tables = Tables(
    keepOrig: set<nat>, compactBy: map<nat, Message>, summarized: seq<Message>, discarded: seq<Message>,
    factOverflow: seq<Message>)

  ghost predicate GradedSoFar(svc: Services, s: Settings, ms: seq<Message>, t: nat, tables: Tables) {
    var turns, tags := TurnsOf(Roles(ms)), GradeTags(svc, s, ms);
    TurnsAreWithin(Roles(ms));
    && t <= |turns|
    && tables.summarized == TaggedTurns(Compacted(svc, ms), turns[..t], tags, Summarize)
    && tables.discarded == TaggedTurns(ms, turns[..t], tags, Discard)
    && tables.factOverflow == TaggedTurns(FactSource(svc, ms, tags), turns[..t], GradedOut(tags), true)
    && KeepSeen(tags, turns, t, SystemPositions(Roles(ms)), tables.keepOrig)
    && CompactSeen(svc, ms, tags, turns, t, tables.compactBy)
  }

  /** The accumulators after turn `t`, by its grade; `compactBy'` is the compaction table after it. */
  ghost predicate TurnAdded(svc: Services, ms: seq<Message>, turn: seq<nat>, g: Bucket, tables: Tables, tables': Tables)
    requires Within(turn, |ms|)
  {
    && (if g == Discard then tables'.compactBy == tables.compactBy
        else AddsRewritten(svc, ms, turn, tables.compactBy, tables'.compactBy))
    && tables'.keepOrig == (if g == Keep then tables.keepOrig + (set p | p in turn) else tables.keepOrig)
    && tables'.summarized == tables.summarized + (if g == Summarize then At(Compacted(svc, ms), turn) else [])
    && tables'.discarded == tables.discarded + (if g == Discard then At(ms, turn) else [])
    && tables'.factOverflow == tables.factOverflow +
       (if g == Keep then [] else if g == Discard then At(ms, turn) else At(Compacted(svc, ms), turn))
  }

  lemma GradedStep(svc: Services, s: Settings, ms: seq<Message>, t: nat, tables: Tables, tables': Tables)
    requires t < |TurnsOf(Roles(ms))| && GradedSoFar(svc, s, ms, t, tables)
    requires var turn := TurnsOf(Roles(ms))[t];
             turn != [] && Within(turn, |ms|) && TurnAdded(svc, ms, turn, Grade(svc, s, ms, turn), tables, tables')
    ensures GradedSoFar(svc, s, ms, t + 1, tables')
  {
    var turns, tags := TurnsOf(Roles(ms)), GradeTags(svc, s, ms);
    GradedTurn(svc, s, ms, t);
    var g := Grade(svc, s, ms, turns[t]);
    assert Front(turns[..t + 1]) == turns[..t] && Last(turns[..t + 1]) == turns[t];
    KeepSeenStep(tags, turns, t, SystemPositions(Roles(ms)), tables.keepOrig, g);
    CompactSeenStep(svc, ms, tags, turns, t, tables.compactBy, tables'.compactBy, g);
  }

  /** The body of the grading loop: one turn. */
  method GradeTurn(svc: Services, s: Settings, messages: seq<Message>, turn: seq<nat>, tables: Tables)
    returns (tables': Tables)
    requires turn != [] && Within(turn, |messages|)
    ensures TurnAdded(svc, messages, turn, Grade(svc, s, messages, turn), tables, tables')
  {
    var score := TurnScore(svc, messages, turn);
    var isRecent := Last(turn) >= RecentStart(|messages|, s.alwaysKeepRecent);
    if !isRecent && score < s.discardScore {
      tables' := tables.(
        discarded := tables.discarded + At(messages, turn),
        factOverflow := tables.factOverflow + At(messages, turn));
    } else {
      var compacted, table := CompactTurn(svc, messages, turn, tables.compactBy);
      if !isRecent && score < s.summarizeScore {
        tables' := tables.(
          compactBy := table,
          summarized := tables.summarized + compacted,
          factOverflow := tables.factOverflow + compacted);
      } else {
        tables' := tables.(compactBy := table, keepOrig := tables.keepOrig + set p | p in turn);
      }
    }
  }

  lemma NothingGraded(svc: Services, s: Settings, ms: seq<Message>, keepOrig: set<nat>)
    requires keepOrig == set p | p in SystemPositions(Roles(ms))
    ensures GradedSoFar(svc, s, ms, 0, Tables(keepOrig, map[], [], [], []))
  {
    PositionsSplit(Roles(ms));
    TurnsAreWithin(Roles(ms));
    var tags := GradeTags(svc, s, ms);
    forall p | p in keepOrig ensures p < |tags| && tags[p] == Keep {
      assert p in SystemPositions(Roles(ms));
    }
    assert KeepSeen(tags, TurnsOf(Roles(ms)), 0, SystemPositions(Roles(ms)), keepOrig);
  }

  method GradeTurns(svc: Services, s: Settings, messages: seq<Message>) returns (tables: Tables)
    ensures GradedSoFar(svc, s, messages, |TurnsOf(Roles(messages))|, tables)
    ensures var tags := GradeTags(svc, s, messages);
            && tables.summarized == Pick(Compacted(svc, messages), tags, Summarize)
            && tables.discarded == Pick(messages, tags, Discard)
            && tables.factOverflow == Pick(FactSource(svc, messages, tags), GradedOut(tags), true)
  {
    var systems, turns := PartitionTurns(messages);
    TurnsAreWithin(Roles(messages));
    tables := Tables(set p | p in systems, map[], [], [], []);
    NothingGraded(svc, s, messages, tables.keepOrig);
    for t := 0 to |turns|
      invariant GradedSoFar(svc, s, messages, t, tables)
    {
      assert Within(turns[t], |messages|);
      var next := GradeTurn(svc, s, messages, turns[t], tables);
      GradedStep(svc, s, messages, t, tables, next);
      tables := next;
    }
    GradingDone(svc, s, messages, tables);
  }

  lemma GradingDone(svc: Services, s: Settings, ms: seq<Message>, tables: Tables)
    requires GradedSoFar(svc, s, ms, |TurnsOf(Roles(ms))|, tables)
    ensures var tags := GradeTags(svc, s, ms);
            && tables.summarized == Pick(Compacted(svc, ms), tags, Summarize)
            && tables.discarded == Pick(ms, tags, Discard)
            && tables.factOverflow == Pick(FactSource(svc, ms, tags), GradedOut(tags), true)
  {
    var tags := GradeTags(svc, s, ms);
    assert TurnsOf(Roles(ms))[..|TurnsOf(Roles(ms))|] == TurnsOf(Roles(ms));
    GradesAreWhole(svc, s, ms);
    PickByTurns(Compacted(svc, ms), Roles(ms), tags, Summarize);
    PickByTurns(ms, Roles(ms), tags, Discard);
    GradedOutIsWhole(Roles(ms), tags);
    PickByTurns(FactSource(svc, ms, tags), Roles(ms), GradedOut(tags), true);
  }

  lemma GradedOutIsWhole(roles: seq<Role>, tags: seq<Bucket>)
    requires WholeTurns(roles, tags) && SystemsTagged(roles, tags, Keep)
    ensures WholeTurns(roles, GradedOut(tags)) && SystemsTagged(roles, GradedOut(tags), false)
  {}

  /** The two tables at every position: what stays, and what of it was rewritten. */
  ghost predicate TablesMatch(svc: Services, ms: seq<Message>, keepOrig: set<nat>, compactBy: map<nat, Message>, tags: seq<Bucket>)
    requires |ms| == |tags|
  {
    forall i :: 0 <= i < |ms| ==>
      && (i in keepOrig <==> tags[i] == Keep)
      && (i in compactBy ==> Rewritten(svc, ms[i]) && compactBy[i] == CompactMessage(svc, ms[i]))
      && (tags[i] == Keep && Rewritten(svc, ms[i]) ==> i in compactBy)
  }

  lemma GradedTablesMatch(svc: Services, ms: seq<Message>, keepOrig: set<nat>, compactBy: map<nat, Message>, tags: seq<Bucket>)
    requires |ms| == |tags|
    requires SystemsTagged(Roles(ms), tags, Keep)
    requires KeepSeen(tags, TurnsOf(Roles(ms)), |TurnsOf(Roles(ms))|, SystemPositions(Roles(ms)), keepOrig)
    requires CompactSeen(svc, ms, tags, TurnsOf(Roles(ms)), |TurnsOf(Roles(ms))|, compactBy)
    ensures TablesMatch(svc, ms, keepOrig, compactBy, tags)
  {
    forall i | 0 <= i < |ms|
      ensures i in keepOrig <==> tags[i] == Keep
      ensures i in compactBy ==> Rewritten(svc, ms[i]) && compactBy[i] == CompactMessage(svc, ms[i])
      ensures tags[i] == Keep && Rewritten(svc, ms[i]) ==> i in compactBy
    {
      TablesAt(svc, ms, keepOrig, compactBy, tags, i);
    }
  }

  /** Rebuild the kept list and the list of rewritten kept messages from the two tables. */
  method Rebuild(svc: Services, messages: seq<Message>, keepOrig: set<nat>, compactBy: map<nat, Message>,
                 ghost tags: seq<Bucket>)
    returns (kept: seq<Message>, updated: seq<Message>)
    requires |tags| == |messages| && TablesMatch(svc, messages, keepOrig, compactBy, tags)
    ensures kept == Pick(Compacted(svc, messages), tags, Keep)
    ensures updated == Pick(Compacted(svc, messages), RewrittenKept(svc, messages, tags), true)
  {
    ghost var cs, mask := Compacted(svc, messages), RewrittenKept(svc, messages, tags);
    kept, updated := [], [];
    for i := 0 to |messages|
      invariant kept == Pick(cs[..i], tags[..i], Keep)
      invariant updated == Pick(cs[..i], mask[..i], true)
    {
      PickNext(cs, tags, Keep, i);
      PickNext(cs, mask, true, i);
      if i in keepOrig {
        kept := kept + [if i in compactBy then compactBy[i] else messages[i]];
        if i in compactBy {
          updated := updated + [compactBy[i]];
        }
      }
    }
    assert cs[..|messages|] == cs && tags[..|messages|] == tags && mask[..|messages|] == mask;
  }

  lemma PickNext<T, B>(xs: seq<T>, tags: seq<B>, b: B, i: nat)
    requires i < |xs| == |tags|
    ensures Pick(xs[..i + 1], tags[..i + 1], b) ==
            if tags[i] == b then Pick(xs[..i], tags[..i], b) + [xs[i]] else Pick(xs[..i], tags[..i], b)
  {
    assert Front(xs[..i + 1]) == xs[..i] && Front(tags[..i + 1]) == tags[..i];
    PickStep(xs[..i + 1], tags[..i + 1], b);
  }

  lemma TablesAt(svc: Services, ms: seq<Message>, keepOrig: set<nat>, compactBy: map<nat, Message>, tags: seq<Bucket>, i: nat)
    requires i < |ms| == |tags|
    requires SystemsTagged(Roles(ms), tags, Keep)
    requires KeepSeen(tags, TurnsOf(Roles(ms)), |TurnsOf(Roles(ms))|, SystemPositions(Roles(ms)), keepOrig)
    requires CompactSeen(svc, ms, tags, TurnsOf(Roles(ms)), |TurnsOf(Roles(ms))|, compactBy)
    ensures i in keepOrig <==> tags[i] == Keep
    ensures i in compactBy ==> Rewritten(svc, ms[i]) && compactBy[i] == CompactMessage(svc, ms[i])
    ensures tags[i] == Keep && Rewritten(svc, ms[i]) ==> i in compactBy
  {
    PositionsSplit(Roles(ms));
    if !Roles(ms)[i].System? {
      BodyHasTurn(Roles(ms), i);
    }
  }
}
