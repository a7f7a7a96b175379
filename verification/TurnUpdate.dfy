/** Turning a compression result into a patch on the stored history, and applying that patch. */
module TurnUpdate {
  import opened Messages
  import opened Sequences
  import opened TurnStability
  import opened BudgetTrim
  import opened Grading
  import opened Compression
  import opened CompressionLaws

  datatype Update = Remove(id: string) | Put(message: Message)

  // ----- Building the patch

  /** Removals for the messages that have an id. */
  function Removals(ms: seq<Message>): (removals: seq<Update>)
    requires forall i :: 0 <= i < |ms| ==> HasId(ms[i])
    ensures |removals| == |ms|
  {
    seq(|ms|, i requires 0 <= i < |ms| && HasId(ms[i]) => Remove(ms[i].id.value))
  }

  function Puts(ms: seq<Message>): (puts: seq<Update>)
    ensures |puts| == |ms|
  {
    seq(|ms|, i requires 0 <= i < |ms| => Put(ms[i]))
  }

  /** This turn's answer: the kept one if it is a new AI message, else one built from the stored text. */
  function TurnAnswer(r: CompressResult, storedAnswer: string): Message {
    if r.kept != [] && Last(r.kept).role.AI? && !HasId(Last(r.kept)) then Last(r.kept)
    else Message(None, AI, storedAnswer)
  }

  lemma {:induction false} WithIdsAll(ms: seq<Message>)
    ensures forall i :: 0 <= i < |WithIds(ms)| ==> HasId(WithIds(ms)[i])
    ensures forall m :: m in WithIds(ms) <==> m in ms && HasId(m)
  {
    if ms != [] {
      WithIdsAll(Front(ms));
    }
  }

  function BuildMessageUpdates(r: CompressResult, storedAnswer: string): seq<Update> {
    WithIdsAll(r.discarded + r.summarized);
    Removals(WithIds(r.discarded + r.summarized)) + Puts(WithIds(r.updated)) + [Put(TurnAnswer(r, storedAnswer))]
  }

  lemma RemovalsIff(ms: seq<Message>, id: string)
    requires forall i :: 0 <= i < |ms| ==> HasId(ms[i])
    ensures Remove(id) in Removals(ms) <==> exists m :: m in ms && m.id == Some(id)
  {
    if m :| m in ms && m.id == Some(id) {
      var i :| 0 <= i < |ms| && ms[i] == m;
      assert Removals(ms)[i] == Remove(id);
    }
    if Remove(id) in Removals(ms) {
      var i :| 0 <= i < |ms| && Removals(ms)[i] == Remove(id);
      assert ms[i].id == Some(id);
    }
  }

  /**
   What a patch names. It removes a message exactly if that message was discarded or summarised and its id is
   not empty, it replaces only messages on the rewritten list whose id is not empty, and it ends with the
   answer of this turn: the kept one if it is a new AI message, one built from the stored text otherwise.
   */
  lemma PatchNamesUsableIds(r: CompressResult, storedAnswer: string, id: string)
    ensures var updates := BuildMessageUpdates(r, storedAnswer);
            && updates != []
            && (Remove(id) in updates <==> id != "" && exists m :: (m in r.discarded || m in r.summarized) && m.id == Some(id))
            && (forall i :: 0 <= i < |updates| - 1 && updates[i].Put? ==>
                  updates[i].message in r.updated && updates[i].message.id.Some? && updates[i].message.id.value != "")
            && Last(updates) == Put(
                 if r.kept != [] && Last(r.kept).role.AI? && (Last(r.kept).id.None? || Last(r.kept).id.value == "")
                 then Last(r.kept) else Message(None, AI, storedAnswer))
  {
    WithIdsAll(r.discarded + r.summarized);
    WithIdsAll(r.updated);
    var gone := WithIds(r.discarded + r.summarized);
    RemovalsIff(gone, id);
    PutsAreUpdated(r);
  }

  lemma PutsAreUpdated(r: CompressResult)
    ensures forall i :: 0 <= i < |WithIds(r.updated)| ==>
              WithIds(r.updated)[i] in r.updated && HasId(WithIds(r.updated)[i])
  {
    WithIdsAll(r.updated);
    forall i | 0 <= i < |WithIds(r.updated)| ensures WithIds(r.updated)[i] in r.updated && HasId(WithIds(r.updated)[i]) {
      assert WithIds(r.updated)[i] in WithIds(r.updated);
    }
  }

  // ----- Applying a patch: the message reducer of the graph

  /** Position of the last message with this id, or the length of the list. */
  function Find(ms: seq<Message>, id: Option<string>): (i: nat)
    ensures i <= |ms|
    ensures i < |ms| ==> ms[i].id == id
  {
    if ms == [] then 0
    else if Last(ms).id == id then |ms| - 1
    else
      var i := Find(Front(ms), id);
      if i == |ms| - 1 then |ms| else i
  }

  /** The reducer's working state, or the failure of removing an id that is not there. */
  datatype Merge = Merging(messages: seq<Message>, removed: set<string>) | UnknownId

  /** Merge by id: an update for an unknown id is appended, one for a known id replaces and un-removes it. */
  function MergeOne(st: Merge, u: Update): Merge {
    match st
    case UnknownId => UnknownId
    case Merging(messages, removed) =>
      match u
      case Remove(id) =>
        if Find(messages, Some(id)) < |messages| then Merging(messages, removed + {id}) else UnknownId
      case Put(m) =>
        var i := Find(messages, m.id);
        if i == |messages| then Merging(messages + [m], removed)
        else Merging(messages[i := m], if m.id.Some? then removed - {m.id.value} else removed)
  }

  function MergeAll(st: Merge, updates: seq<Update>): Merge {
    if updates == [] then st else MergeOne(MergeAll(st, Front(updates)), Last(updates))
  }

  function Finish(st: Merge): Option<seq<Message>> {
    match st
    case UnknownId => None
    case Merging(messages, removed) => Some(DropIds(messages, removed))
  }

  /** Messages without an id are given a new one before merging. */
  function AssignId(u: Update, newId: string): Update {
    if u.Put? && u.message.id.None? then Put(u.message.(id := Some(newId))) else u
  }

  function ApplyUpdates(stored: seq<Message>, updates: seq<Update>, newId: string): Option<seq<Message>> {
    Finish(MergeAll(Merging(stored, {}), seq(|updates|, i requires 0 <= i < |updates| => AssignId(updates[i], newId))))
  }

  // ----- Distinct ids

  ghost predicate DistinctIds(ms: seq<Message>) {
    forall i, j :: 0 <= i < j < |ms| && ms[i].id.Some? ==> ms[i].id != ms[j].id
  }

  /** A stored history: every message has a usable id and no two share one. */
  ghost predicate Stored(ms: seq<Message>) {
    && (forall i :: 0 <= i < |ms| ==> HasId(ms[i]))
    && DistinctIds(ms)
  }

  lemma {:induction false} FindOnly(ms: seq<Message>, i: nat)
    requires i < |ms| && ms[i].id.Some?
    requires forall j :: 0 <= j < |ms| && j != i ==> ms[j].id != ms[i].id
    ensures Find(ms, ms[i].id) == i
  {
    if i < |ms| - 1 {
      FindOnly(Front(ms), i);
    }
  }

  lemma {:induction false} FindNone(ms: seq<Message>, id: Option<string>)
    requires forall j :: 0 <= j < |ms| ==> ms[j].id != id
    ensures Find(ms, id) == |ms|
  {
    if ms != [] {
      FindNone(Front(ms), id);
    }
  }

  lemma {:induction false} FindSome(ms: seq<Message>, id: Option<string>, i: nat)
    requires i < |ms| && ms[i].id == id
    ensures Find(ms, id) < |ms|
  {
    if i < |ms| - 1 {
      FindSome(Front(ms), id, i);
    }
  }

  lemma {:induction false} PickMember<B>(ms: seq<Message>, tags: seq<B>, b: B, m: Message)
    requires |ms| == |tags|
    ensures m in Pick(ms, tags, b) <==> exists i :: 0 <= i < |ms| && ms[i] == m && tags[i] == b
  {
    if ms != [] {
      PickMember(Front(ms), Front(tags), b, m);
      PickStep(ms, tags, b);
      assert forall i :: 0 <= i < |ms| - 1 ==> Front(ms)[i] == ms[i] && Front(tags)[i] == tags[i];
    }
  }

  /** With distinct ids, an id is among the picked ones exactly when its own position is picked. */
  lemma IdPicked<B>(ms: seq<Message>, tags: seq<B>, b: B, i: nat)
    requires |ms| == |tags| && DistinctIds(ms) && i < |ms| && ms[i].id.Some?
    ensures ms[i].id.value in Ids(Pick(ms, tags, b)) <==> tags[i] == b
  {
    PickMember(ms, tags, b, ms[i]);
    if ms[i].id.value in Ids(Pick(ms, tags, b)) {
      var m :| m in Pick(ms, tags, b) && m.id.Some? && m.id.value == ms[i].id.value;
      PickMember(ms, tags, b, m);
      var j :| 0 <= j < |ms| && ms[j] == m && tags[j] == b;
      assert j == i;
    }
  }

  // ----- The updated list names exactly the rewritten kept messages

  lemma {:induction false} DropIdsOfPick(ms: seq<Message>, mask: seq<bool>, ids: set<string>, left: seq<bool>)
    requires |ms| == |mask| == |left|
    requires forall i :: 0 <= i < |ms| ==> (left[i] <==> mask[i] && !(ms[i].id.Some? && ms[i].id.value in ids))
    ensures DropIds(Pick(ms, mask, true), ids) == Pick(ms, left, true)
  {
    if ms != [] {
      DropIdsOfPick(Front(ms), Front(mask), ids, Front(left));
      PickStep(ms, mask, true);
      PickStep(ms, left, true);
      var before := Pick(Front(ms), Front(mask), true);
      assert Front(before + [Last(ms)]) == before;
    }
  }

  lemma {:induction false} WithIdsOfPick(ms: seq<Message>, mask: seq<bool>, left: seq<bool>)
    requires |ms| == |mask| == |left|
    requires forall i :: 0 <= i < |ms| ==> (left[i] <==> mask[i] && HasId(ms[i]))
    ensures WithIds(Pick(ms, mask, true)) == Pick(ms, left, true)
  {
    if ms != [] {
      WithIdsOfPick(Front(ms), Front(mask), Front(left));
      PickStep(ms, mask, true);
      PickStep(ms, left, true);
      var before := Pick(Front(ms), Front(mask), true);
      assert Front(before + [Last(ms)]) == before;
    }
  }

  /** Positions whose replacement the patch must carry. */
  function Replaced(svc: Services, ms: seq<Message>, tags: seq<Bucket>): (mask: seq<bool>)
    requires |tags| == |ms|
    ensures |mask| == |ms|
  {
    seq(|ms|, i requires 0 <= i < |ms| => tags[i] == Keep && Rewritten(svc, ms[i]) && HasId(ms[i]))
  }

  /** One pass: dropping by overflow id is the same as recomputing from the new tags. */
  lemma DropAfterTrim(svc: Services, s: Settings, ms: seq<Message>, tags: seq<Bucket>, summary: string, trimmed: Bucket)
    requires |ms| == |tags| && DistinctIds(ms) && trimmed != Keep && trimmed !in tags
    requires forall i :: 0 <= i < |ms| - 1 ==> ms[i].id.Some?
    ensures var tags' := Trim(svc, s, Compacted(svc, ms), tags, summary, trimmed);
            var cs := Compacted(svc, ms);
            DropIds(Pick(cs, RewrittenKept(svc, ms, tags), true), Ids(Pick(cs, tags', trimmed))) ==
            Pick(cs, RewrittenKept(svc, ms, tags'), true)
  {
    var cs := Compacted(svc, ms);
    var tags' := Trim(svc, s, cs, tags, summary, trimmed);
    var ids := Ids(Pick(cs, tags', trimmed));
    var mask, left := RewrittenKept(svc, ms, tags), RewrittenKept(svc, ms, tags');
    forall i | 0 <= i < |ms| ensures left[i] <==> mask[i] && !(cs[i].id.Some? && cs[i].id.value in ids) {
      TrimAt(svc, s, cs, tags, summary, trimmed, i);
      if cs[i].id.Some? {
        IdPicked(cs, tags', trimmed, i);
      }
    }
    DropIdsOfPick(cs, mask, ids, left);
  }

  /** A pass changes a tag only from Keep to `trimmed`, and never the last one. */
  lemma TrimAt(svc: Services, s: Settings, cs: seq<Message>, tags: seq<Bucket>, summary: string, trimmed: Bucket, i: nat)
    requires i < |cs| == |tags| && trimmed != Keep && trimmed !in tags
    ensures var tags' := Trim(svc, s, cs, tags, summary, trimmed);
            && (tags[i] != Keep ==> tags'[i] == tags[i])
            && (tags[i] == Keep ==> tags'[i] == Keep || tags'[i] == trimmed)
            && (tags[i] == Keep && i == |cs| - 1 ==> tags'[i] == Keep)
  {
    var kept := Pick(cs, tags, Keep);
    PickLength(cs, tags, tags, Keep);
    LiftAt(tags, Keep, AsBuckets(PassMask(svc, s, kept, summary), trimmed), i);
    if tags[i] == Keep && i == |cs| - 1 {
      TrimKeepsRecent(svc, s, cs, tags, summary, trimmed, i);
    }
  }

  lemma UpdatedNamesReplaced(svc: Services, s: Settings, ms: seq<Message>, existing: string)
    requires DistinctIds(ms)
    requires forall i :: 0 <= i < |ms| - 1 ==> ms[i].id.Some?
    ensures WithIds(Updated(svc, s, ms, existing)) ==
            Pick(Compacted(svc, ms), Replaced(svc, ms, Buckets(svc, s, ms, existing)), true)
  {
    var cs, tags := Compacted(svc, ms), Buckets(svc, s, ms, existing);
    assert forall i :: 0 <= i < |ms| ==> cs[i].id == ms[i].id;
    if ms == [] || Fits(svc, s, ms, existing) {
      WithIdsOfPick(cs, RewrittenKept(svc, ms, tags), Replaced(svc, ms, tags));
      WithIdsTwice(Pick(cs, RewrittenKept(svc, ms, tags), true));
    } else {
      GradesHaveNoTrim(svc, s, ms);
      NoSecondTrimYet(svc, s, ms, existing);
      DropAfterTrim(svc, s, ms, GradeTags(svc, s, ms), existing, FirstTrim);
      DropAfterTrim(svc, s, ms, FirstTags(svc, s, ms, existing), GrownSummary(svc, s, ms, existing), SecondTrim);
      WithIdsOfPick(cs, RewrittenKept(svc, ms, tags), Replaced(svc, ms, tags));
    }
  }

  lemma {:induction false} WithIdsTwice(ms: seq<Message>)
    ensures WithIds(WithIds(ms)) == WithIds(ms)
  {
    if ms != [] {
      WithIdsTwice(Front(ms));
      if HasId(Last(ms)) {
        WithIdsSnoc(WithIds(Front(ms)), Last(ms));
      } else {
        assert WithIds(ms) == WithIds(Front(ms));
      }
    }
  }

  // ----- Replaying the patch

  lemma {:induction false} MergeAppend(st: Merge, first: seq<Update>, second: seq<Update>)
    ensures MergeAll(st, first + second) == MergeAll(MergeAll(st, first), second)
  {
    if second == [] {
      assert first + second == first;
    } else {
      MergeAppend(st, first, Front(second));
      assert Front(first + second) == first + Front(second);
    }
  }

  lemma IdsSnoc(ms: seq<Message>)
    requires ms != [] && Last(ms).id.Some?
    ensures Ids(ms) == Ids(Front(ms)) + {Last(ms).id.value}
  {
    assert ms == Front(ms) + [Last(ms)];
    IdsOfAppend(Front(ms), [Last(ms)]);
    assert Ids([Last(ms)]) == {Last(ms).id.value};
  }

  lemma {:induction false} MergeRemovals(messages: seq<Message>, removed: set<string>, gone: seq<Message>)
    requires forall i :: 0 <= i < |gone| ==> HasId(gone[i]) && Find(messages, gone[i].id) < |messages|
    ensures MergeAll(Merging(messages, removed), Removals(gone)) == Merging(messages, removed + Ids(gone))
  {
    if gone == [] {
      assert removed + Ids(gone) == removed;
    } else {
      MergeRemovals(messages, removed, Front(gone));
      IdsSnoc(gone);
      RemovalsSnoc(gone);
      MergeSnoc(Merging(messages, removed), Removals(Front(gone)), Remove(Last(gone).id.value));
      assert removed + (Ids(Front(gone)) + {Last(gone).id.value}) == removed + Ids(Front(gone)) + {Last(gone).id.value};
    }
  }

  lemma RemovalsSnoc(gone: seq<Message>)
    requires gone != [] && forall i :: 0 <= i < |gone| ==> HasId(gone[i])
    ensures Removals(gone) == Removals(Front(gone)) + [Remove(Last(gone).id.value)]
  {}

  /** The stored list with the replacements for positions below `p` written in. */
  function Mixed(xs: seq<Message>, cs: seq<Message>, mask: seq<bool>, p: nat): (mixed: seq<Message>)
    requires |xs| == |cs| == |mask|
    ensures |mixed| == |xs|
  {
    seq(|xs|, i requires 0 <= i < |xs| => if i < p && mask[i] then cs[i] else xs[i])
  }

  lemma MergeOnePut(xs: seq<Message>, cs: seq<Message>, mask: seq<bool>, p: nat, removed: set<string>)
    requires |xs| == |cs| == |mask| && p < |xs| && Stored(xs)
    requires forall i :: 0 <= i < |xs| ==> cs[i].id == xs[i].id
    requires mask[p] && xs[p].id.value !in removed
    ensures MergeOne(Merging(Mixed(xs, cs, mask, p), removed), Put(cs[p])) == Merging(Mixed(xs, cs, mask, p + 1), removed)
  {
    var mixed := Mixed(xs, cs, mask, p);
    FindOnly(mixed, p);
    assert mixed[p := cs[p]] == Mixed(xs, cs, mask, p + 1);
    assert removed - {cs[p].id.value} == removed;
  }

  lemma MergeSnoc(st: Merge, updates: seq<Update>, u: Update)
    ensures MergeAll(st, updates + [u]) == MergeOne(MergeAll(st, updates), u)
  {
    assert Front(updates + [u]) == updates;
  }

  /** The replacements for positions below `p`. */
  function PutsBelow(cs: seq<Message>, mask: seq<bool>, p: nat): seq<Update>
    requires |cs| == |mask| && p <= |cs|
  {
    Puts(Pick(cs[..p], mask[..p], true))
  }

  lemma PutsBelowNext(cs: seq<Message>, mask: seq<bool>, p: nat)
    requires |cs| == |mask| && p < |cs|
    ensures PutsBelow(cs, mask, p + 1) == if mask[p] then PutsBelow(cs, mask, p) + [Put(cs[p])] else PutsBelow(cs, mask, p)
  {
    assert Front(cs[..p + 1]) == cs[..p] && Front(mask[..p + 1]) == mask[..p];
    PickStep(cs[..p + 1], mask[..p + 1], true);
  }

  lemma NextPut(xs: seq<Message>, cs: seq<Message>, mask: seq<bool>, p: nat, removed: set<string>)
    requires |xs| == |cs| == |mask| && p < |xs| && Stored(xs)
    requires forall i :: 0 <= i < |xs| ==> cs[i].id == xs[i].id
    requires mask[p] ==> xs[p].id.value !in removed
    requires MergeAll(Merging(xs, removed), PutsBelow(cs, mask, p)) == Merging(Mixed(xs, cs, mask, p), removed)
    ensures MergeAll(Merging(xs, removed), PutsBelow(cs, mask, p + 1)) == Merging(Mixed(xs, cs, mask, p + 1), removed)
  {
    PutsBelowNext(cs, mask, p);
    if mask[p] {
      MergeSnoc(Merging(xs, removed), PutsBelow(cs, mask, p), Put(cs[p]));
      MergeOnePut(xs, cs, mask, p, removed);
    } else {
      assert Mixed(xs, cs, mask, p) == Mixed(xs, cs, mask, p + 1);
    }
  }

  lemma {:induction false} MergePuts(xs: seq<Message>, cs: seq<Message>, mask: seq<bool>, p: nat, removed: set<string>)
    requires |xs| == |cs| == |mask| && p <= |xs| && Stored(xs)
    requires forall i :: 0 <= i < |xs| ==> cs[i].id == xs[i].id
    requires forall i :: 0 <= i < |xs| && mask[i] ==> xs[i].id.value !in removed
    ensures MergeAll(Merging(xs, removed), PutsBelow(cs, mask, p)) == Merging(Mixed(xs, cs, mask, p), removed)
  {
    if p == 0 {
      assert Mixed(xs, cs, mask, 0) == xs;
    } else {
      MergePuts(xs, cs, mask, p - 1, removed);
      NextPut(xs, cs, mask, p - 1, removed);
    }
  }

  lemma {:induction false} DropIdsGives(mixed: seq<Message>, removed: set<string>, cs: seq<Message>, tags: seq<Bucket>)
    requires |mixed| == |cs| == |tags|
    requires forall i :: 0 <= i < |cs| ==> mixed[i].id.Some?
    requires forall i :: 0 <= i < |cs| ==> (mixed[i].id.value in removed <==> tags[i] != Keep)
    requires forall i :: 0 <= i < |cs| && tags[i] == Keep ==> mixed[i] == cs[i]
    ensures DropIds(mixed, removed) == Pick(cs, tags, Keep)
  {
    if cs != [] {
      DropIdsGives(Front(mixed), removed, Front(cs), Front(tags));
      PickStep(cs, tags, Keep);
    }
  }

  /** The history a turn is compressed on: what is stored, then the new answer, which has no id yet. */
  function Projected(stored: seq<Message>, storedAnswer: string): seq<Message> {
    stored + [Message(None, AI, storedAnswer)]
  }

  lemma ProjectedIsDistinct(stored: seq<Message>, storedAnswer: string)
    requires Stored(stored)
    ensures DistinctIds(Projected(stored, storedAnswer))
  {}

  function RemovedIds(r: CompressResult): set<string> {
    Ids(WithIds(r.discarded + r.summarized))
  }

  /** Removed and kept ids partition the stored ids: an id is removed exactly when its message is not kept. */
  lemma RemovedIffNotKept(svc: Services, s: Settings, stored: seq<Message>, storedAnswer: string, existing: string, i: nat)
    requires Stored(stored) && i < |stored|
    ensures var ms := Projected(stored, storedAnswer);
            stored[i].id.value in RemovedIds(Outcome(svc, s, ms, existing)) <==> Buckets(svc, s, ms, existing)[i] != Keep
  {
    var ms := Projected(stored, storedAnswer);
    var r := Outcome(svc, s, ms, existing);
    ProjectedIsDistinct(stored, storedAnswer);
    IdsOfWithIds(r.discarded + r.summarized, stored[i].id.value);
    IdGoneIffNotKept(ms, Compacted(svc, ms), Buckets(svc, s, ms, existing), i);
  }

  /** All messages that do not stay. */
  function Gone(ms: seq<Message>, cs: seq<Message>, tags: seq<Bucket>): seq<Message>
    requires |ms| == |cs| == |tags|
  {
    Pick(ms, tags, Discard) + (Pick(cs, tags, Summarize) + Pick(cs, tags, FirstTrim) + Pick(cs, tags, SecondTrim))
  }

  lemma GoneMember(ms: seq<Message>, cs: seq<Message>, tags: seq<Bucket>, m: Message)
    requires |ms| == |cs| == |tags|
    ensures m in Gone(ms, cs, tags) <==> exists k :: 0 <= k < |ms| && m == (if tags[k] == Discard then ms[k] else cs[k]) && tags[k] != Keep
  {
    PickMember(ms, tags, Discard, m);
    PickMember(cs, tags, Summarize, m);
    PickMember(cs, tags, FirstTrim, m);
    PickMember(cs, tags, SecondTrim, m);
  }

  lemma IdGoneIffNotKept(ms: seq<Message>, cs: seq<Message>, tags: seq<Bucket>, i: nat)
    requires |ms| == |cs| == |tags| && DistinctIds(ms) && i < |ms| && ms[i].id.Some?
    requires forall k :: 0 <= k < |ms| ==> cs[k].id == ms[k].id
    ensures ms[i].id.value in Ids(Gone(ms, cs, tags)) <==> tags[i] != Keep
  {
    var id := ms[i].id.value;
    if tags[i] != Keep {
      var m := if tags[i] == Discard then ms[i] else cs[i];
      GoneMember(ms, cs, tags, m);
      assert m.id == Some(id);
    }
    if id in Ids(Gone(ms, cs, tags)) {
      var m :| m in Gone(ms, cs, tags) && m.id.Some? && m.id.value == id;
      GoneMember(ms, cs, tags, m);
      var k :| 0 <= k < |ms| && m == (if tags[k] == Discard then ms[k] else cs[k]) && tags[k] != Keep;
      assert ms[k].id == ms[i].id;
    }
  }

  lemma IdsOfAppend(a: seq<Message>, b: seq<Message>)
    ensures Ids(a + b) == Ids(a) + Ids(b)
  {}

  lemma IdsOfWithIds(ms: seq<Message>, id: string)
    requires id != ""
    ensures id in Ids(WithIds(ms)) <==> id in Ids(ms)
  {
    WithIdsAll(ms);
    if id in Ids(ms) {
      var m :| m in ms && m.id.Some? && m.id.value == id;
      assert m in WithIds(ms);
    }
  }

  /** Only stored messages are ever removed: the answer has no id, and every removed id is a stored one. */
  lemma RemovedAreStored(svc: Services, s: Settings, stored: seq<Message>, storedAnswer: string, existing: string, m: Message)
    requires m in Outcome(svc, s, Projected(stored, storedAnswer), existing).discarded +
                  Outcome(svc, s, Projected(stored, storedAnswer), existing).summarized
    requires HasId(m)
    ensures exists i :: 0 <= i < |stored| && stored[i].id == m.id
  {
    var ms := Projected(stored, storedAnswer);
    var i := GonePosition(ms, Compacted(svc, ms), Buckets(svc, s, ms, existing), m);
    assert i < |stored| && stored[i].id == m.id;
  }

  lemma GonePosition(ms: seq<Message>, cs: seq<Message>, tags: seq<Bucket>, m: Message) returns (i: nat)
    requires |ms| == |cs| == |tags| && forall k :: 0 <= k < |ms| ==> cs[k].id == ms[k].id
    requires m in Gone(ms, cs, tags)
    ensures i < |ms| && ms[i].id == m.id
  {
    GoneMember(ms, cs, tags, m);
    i :| 0 <= i < |ms| && m == (if tags[i] == Discard then ms[i] else cs[i]) && tags[i] != Keep;
  }

  /** What the stored history becomes: the kept messages, the new answer last and with its fresh id. */
  function Planned(svc: Services, s: Settings, stored: seq<Message>, storedAnswer: string, existing: string, newId: string)
    : seq<Message>
  {
    var ms := Projected(stored, storedAnswer);
    var kept := Outcome(svc, s, ms, existing).kept;
    if Last(Buckets(svc, s, ms, existing)) == Keep && kept != [] then Front(kept) + [Last(kept).(id := Some(newId))]
    else kept + [Message(Some(newId), AI, storedAnswer)]
  }

  lemma KeptOldHaveIds(svc: Services, stored: seq<Message>, tags: seq<Bucket>)
    requires Stored(stored) && |tags| == |stored|
    ensures var olds := Pick(Compacted(svc, stored), tags, Keep); olds != [] ==> HasId(Last(olds))
  {
    var kept := Pick(Compacted(svc, stored), tags, Keep);
    if kept != [] {
      PickMember(Compacted(svc, stored), tags, Keep, Last(kept));
    }
  }

  /** The kept list is what is kept of the stored messages, then the answer if that is kept. */
  lemma SplitKept(svc: Services, s: Settings, stored: seq<Message>, storedAnswer: string, existing: string)
    requires Stored(stored)
    ensures var ms := Projected(stored, storedAnswer);
            var cs, tags, r := Compacted(svc, ms), Buckets(svc, s, ms, existing), Outcome(svc, s, ms, existing);
            var before := Pick(Front(cs), Front(tags), Keep);
            && Front(cs) == Compacted(svc, stored)
            && r.kept == (if Last(tags) == Keep then before + [Last(cs)] else before)
            && TurnAnswer(r, storedAnswer) == (if Last(tags) == Keep then Last(cs) else Message(None, AI, storedAnswer))
            && Last(cs).id == None
  {
    var ms := Projected(stored, storedAnswer);
    var cs, tags, r := Compacted(svc, ms), Buckets(svc, s, ms, existing), Outcome(svc, s, ms, existing);
    PickStep(cs, tags, Keep);
    CompactedFront(svc, stored, storedAnswer);
    KeptOldHaveIds(svc, stored, Front(tags));
    AnswerOf(r, Pick(Front(cs), Front(tags), Keep), Last(cs), Last(tags) == Keep, storedAnswer);
  }

  lemma CompactedFront(svc: Services, stored: seq<Message>, storedAnswer: string)
    ensures var cs := Compacted(svc, Projected(stored, storedAnswer));
            Front(cs) == Compacted(svc, stored) && Last(cs).id == None && Last(cs).role == AI
  {}

  lemma AnswerOf(r: CompressResult, before: seq<Message>, answer: Message, kept: bool, storedAnswer: string)
    requires r.kept == if kept then before + [answer] else before
    requires answer.id == None && answer.role == AI && (before != [] ==> HasId(Last(before)))
    ensures TurnAnswer(r, storedAnswer) == if kept then answer else Message(None, AI, storedAnswer)
  {}

  /**
   Applying the patch of a turn to the stored history gives exactly the kept list: removed messages go,
   compacted ones are replaced where they stand, and the answer comes last under its fresh id.
   */
  lemma PatchGivesPlanned(svc: Services, s: Settings, stored: seq<Message>, storedAnswer: string, existing: string, newId: string)
    requires Stored(stored)
    requires newId != "" && forall i :: 0 <= i < |stored| ==> stored[i].id != Some(newId)
    ensures var r := Outcome(svc, s, Projected(stored, storedAnswer), existing);
            ApplyUpdates(stored, BuildMessageUpdates(r, storedAnswer), newId) ==
            Some(Planned(svc, s, stored, storedAnswer, existing, newId))
  {
    var ms := Projected(stored, storedAnswer);
    var cs, tags, r := Compacted(svc, ms), Buckets(svc, s, ms, existing), Outcome(svc, s, ms, existing);
    var gone, puts := WithIds(r.discarded + r.summarized), WithIds(r.updated);
    var answer := TurnAnswer(r, storedAnswer).(id := Some(newId));
    PatchIsReplayable(svc, s, stored, storedAnswer, existing, newId);
    ReplayPatch(stored, gone, Front(cs), Front(Replaced(svc, ms, tags)), Front(tags), answer);
    PutsAreReplaced(svc, s, stored, storedAnswer, existing);
    SplitKept(svc, s, stored, storedAnswer, existing);
    PatchIsStamped(r, storedAnswer, newId, gone, puts);
  }

  lemma PatchIsReplayable(svc: Services, s: Settings, stored: seq<Message>, storedAnswer: string, existing: string, newId: string)
    requires Stored(stored)
    requires newId != "" && forall i :: 0 <= i < |stored| ==> stored[i].id != Some(newId)
    ensures var ms := Projected(stored, storedAnswer);
            var tags, r := Buckets(svc, s, ms, existing), Outcome(svc, s, ms, existing);
            Replayable(stored, WithIds(r.discarded + r.summarized), Front(Compacted(svc, ms)),
                       Front(Replaced(svc, ms, tags)), Front(tags), TurnAnswer(r, storedAnswer).(id := Some(newId)))
  {
    var ms := Projected(stored, storedAnswer);
    GoneAreStored(svc, s, stored, storedAnswer, existing, newId);
    MasksAgree(svc, stored, storedAnswer, Buckets(svc, s, ms, existing));
  }

  lemma MasksAgree(svc: Services, stored: seq<Message>, storedAnswer: string, tags: seq<Bucket>)
    requires |tags| == |stored| + 1
    requires forall i :: 0 <= i < |stored| ==> HasId(stored[i])
    ensures var ms := Projected(stored, storedAnswer);
            var cs, mask := Front(Compacted(svc, ms)), Front(Replaced(svc, ms, tags));
            && (forall i :: 0 <= i < |stored| ==> cs[i].id == stored[i].id)
            && (forall i :: 0 <= i < |stored| && mask[i] ==> Front(tags)[i] == Keep)
            && (forall i :: 0 <= i < |stored| && Front(tags)[i] == Keep && !mask[i] ==> cs[i] == stored[i])
  {}

  /** What replaying a patch needs: it names stored ids, and it removes exactly the ids that are not kept. */
  ghost predicate Replayable(stored: seq<Message>, gone: seq<Message>, cs: seq<Message>, mask: seq<bool>, tags: seq<Bucket>,
                             answer: Message)
  {
    && |stored| == |cs| == |mask| == |tags|
    && Stored(stored)
    && (forall i :: 0 <= i < |gone| ==> HasId(gone[i]) && Find(stored, gone[i].id) < |stored|)
    && (forall i :: 0 <= i < |stored| ==> cs[i].id == stored[i].id)
    && (forall i :: 0 <= i < |stored| ==> (stored[i].id.value in Ids(gone) <==> tags[i] != Keep))
    && (forall i :: 0 <= i < |stored| && mask[i] ==> tags[i] == Keep)
    && (forall i :: 0 <= i < |stored| && tags[i] == Keep && !mask[i] ==> cs[i] == stored[i])
    && answer.id.Some? && answer.id.value !in Ids(gone)
    && (forall i :: 0 <= i < |stored| ==> stored[i].id != answer.id)
  }

  /** After removals and replacements: the mixed list, with the removed ids noted. */
  lemma ReplayUpToAnswer(stored: seq<Message>, gone: seq<Message>, cs: seq<Message>, mask: seq<bool>, tags: seq<Bucket>,
                         answer: Message)
    requires Replayable(stored, gone, cs, mask, tags, answer)
    ensures MergeAll(Merging(stored, {}), Removals(gone) + Puts(Pick(cs, mask, true))) ==
            Merging(Mixed(stored, cs, mask, |stored|), Ids(gone))
  {
    MergeAppend(Merging(stored, {}), Removals(gone), Puts(Pick(cs, mask, true)));
    MergeRemovals(stored, {}, gone);
    assert {} + Ids(gone) == Ids(gone);
    assert cs[..|stored|] == cs && mask[..|stored|] == mask;
    MergePuts(stored, cs, mask, |stored|, Ids(gone));
  }

  /** Removals, then replacements, then the answer, then dropping the removed ids. */
  lemma ReplayPatch(stored: seq<Message>, gone: seq<Message>, cs: seq<Message>, mask: seq<bool>, tags: seq<Bucket>, answer: Message)
    requires Replayable(stored, gone, cs, mask, tags, answer)
    ensures Finish(MergeAll(Merging(stored, {}), Removals(gone) + (Puts(Pick(cs, mask, true)) + [Put(answer)]))) ==
            Some(Pick(cs, tags, Keep) + [answer])
  {
    var changes, mixed := Removals(gone) + Puts(Pick(cs, mask, true)), Mixed(stored, cs, mask, |stored|);
    ReplayUpToAnswer(stored, gone, cs, mask, tags, answer);
    MergeSnoc(Merging(stored, {}), changes, Put(answer));
    assert changes + [Put(answer)] == Removals(gone) + (Puts(Pick(cs, mask, true)) + [Put(answer)]);
    FindNone(mixed, answer.id);
    DropIdsGives(mixed, Ids(gone), cs, tags);
    assert Front(mixed + [answer]) == mixed;
  }

  /** The messages to remove are stored ones, the fresh id is not among them, and they are the ones not kept. */
  lemma GoneAreStored(svc: Services, s: Settings, stored: seq<Message>, storedAnswer: string, existing: string, newId: string)
    requires Stored(stored)
    requires newId != "" && forall i :: 0 <= i < |stored| ==> stored[i].id != Some(newId)
    ensures var ms := Projected(stored, storedAnswer);
            var r := Outcome(svc, s, ms, existing);
            var gone := WithIds(r.discarded + r.summarized);
            && (forall i :: 0 <= i < |gone| ==> HasId(gone[i]) && Find(stored, gone[i].id) < |stored|)
            && newId !in Ids(gone)
            && (forall i :: 0 <= i < |stored| ==>
                  (stored[i].id.value in Ids(gone) <==> Front(Buckets(svc, s, ms, existing))[i] != Keep))
  {
    var r := Outcome(svc, s, Projected(stored, storedAnswer), existing);
    var gone := WithIds(r.discarded + r.summarized);
    WithIdsAll(r.discarded + r.summarized);
    forall m | m in gone ensures HasId(m) && Find(stored, m.id) < |stored| && m.id != Some(newId) {
      RemovedAreStored(svc, s, stored, storedAnswer, existing, m);
      var j :| 0 <= j < |stored| && stored[j].id == m.id;
      FindSome(stored, m.id, j);
    }
    forall i | 0 <= i < |stored|
      ensures stored[i].id.value in Ids(gone) <==>
              Buckets(svc, s, Projected(stored, storedAnswer), existing)[i] != Keep
    {
      RemovedIffNotKept(svc, s, stored, storedAnswer, existing, i);
    }
  }

  /** The replacements the patch carries are the rewritten kept stored messages, in order. */
  lemma PutsAreReplaced(svc: Services, s: Settings, stored: seq<Message>, storedAnswer: string, existing: string)
    requires Stored(stored)
    ensures var ms := Projected(stored, storedAnswer);
            var mask := Replaced(svc, ms, Buckets(svc, s, ms, existing));
            WithIds(Outcome(svc, s, ms, existing).updated) == Pick(Front(Compacted(svc, ms)), Front(mask), true)
  {
    var ms := Projected(stored, storedAnswer);
    ProjectedIsDistinct(stored, storedAnswer);
    UpdatedNamesReplaced(svc, s, ms, existing);
    var cs, mask := Compacted(svc, ms), Replaced(svc, ms, Buckets(svc, s, ms, existing));
    assert !Last(mask);
    PickStep(cs, mask, true);
  }

  /** The patch with the missing id filled in, spelled as removals, replacements and the answer. */
  lemma PatchIsStamped(r: CompressResult, storedAnswer: string, newId: string, gone: seq<Message>, puts: seq<Message>)
    requires gone == WithIds(r.discarded + r.summarized) && puts == WithIds(r.updated)
    requires TurnAnswer(r, storedAnswer).id == None
    requires forall i :: 0 <= i < |gone| ==> HasId(gone[i])
    ensures var updates := BuildMessageUpdates(r, storedAnswer);
            seq(|updates|, i requires 0 <= i < |updates| => AssignId(updates[i], newId)) ==
            Removals(gone) + (Puts(puts) + [Put(TurnAnswer(r, storedAnswer).(id := Some(newId)))])
  {
    WithIdsAll(r.updated);
  }

  /** The kept list as it is stored: a new answer at its end gets the fresh id. */
  function Stamp(ms: seq<Message>, newId: string): seq<Message> {
    if ms == [] || Last(ms).id.Some? then ms else Front(ms) + [Last(ms).(id := Some(newId))]
  }

  /** The new answer stays in the kept list: nothing had to go, or grading keeps its turn. */
  predicate AnswerKept(svc: Services, s: Settings, stored: seq<Message>, storedAnswer: string, existing: string) {
    var ms := Projected(stored, storedAnswer);
    Fits(svc, s, ms, existing) || Last(GradeTags(svc, s, ms)) == Keep
  }

  /**
   The patch reproduces the kept list exactly when grading keeps the answer's turn; otherwise the answer is
   appended once more than the kept list has it. A positive `alwaysKeepRecent` is enough.
   */
  lemma PatchReproducesKeptIff(svc: Services, s: Settings, stored: seq<Message>, storedAnswer: string, existing: string, newId: string)
    requires Stored(stored)
    requires newId != "" && forall i :: 0 <= i < |stored| ==> stored[i].id != Some(newId)
    ensures var r := Outcome(svc, s, Projected(stored, storedAnswer), existing);
            ApplyUpdates(stored, BuildMessageUpdates(r, storedAnswer), newId) == Some(Stamp(r.kept, newId))
            <==> AnswerKept(svc, s, stored, storedAnswer, existing)
    ensures s.alwaysKeepRecent >= 1 ==> AnswerKept(svc, s, stored, storedAnswer, existing)
  {
    PatchGivesPlanned(svc, s, stored, storedAnswer, existing, newId);
    PlannedIsStampedIff(svc, s, stored, storedAnswer, existing, newId);
    LastSurvivesIffGradedKeep(svc, s, Projected(stored, storedAnswer), existing);
    if s.alwaysKeepRecent >= 1 {
      RecentGradedKeep(svc, s, Projected(stored, storedAnswer), |stored|);
    }
  }

  /**
   A run that shows it, with a floor of zero, which deployed settings do not allow: a history of the answer alone
   that grading discards keeps nothing, and the patch still appends the answer.
   */
  lemma DiscardedAnswerIsAppended(svc: Services, s: Settings)
    requires s.alwaysKeepRecent <= 0 && s.maxMessages < 1
    requires forall m, ms :: svc.score(m, ms) < s.discardScore
    ensures var r := Outcome(svc, s, Projected([], "answer"), "");
            ApplyUpdates([], BuildMessageUpdates(r, "answer"), "new") != Some(Stamp(r.kept, "new"))
  {
    var ms := Projected([], "answer");
    assert TurnScore(svc, ms, TurnAround(Roles(ms), 0)) < s.discardScore by {
      AlwaysBelow(svc, ms, TurnAround(Roles(ms), 0), s.discardScore);
    }
    assert Last(GradeTags(svc, s, ms)) != Keep by {
      GradeTagAt(svc, s, ms, 0, TurnAround(Roles(ms), 0));
    }
    PatchReproducesKeptIff(svc, s, [], "answer", "", "new");
  }

  lemma {:induction false} AlwaysBelow(svc: Services, ms: seq<Message>, turn: seq<nat>, bound: real)
    requires turn != [] && Within(turn, |ms|) && forall m, ms' :: svc.score(m, ms') < bound
    ensures TurnScore(svc, ms, turn) < bound
  {
    if |turn| > 1 {
      AlwaysBelow(svc, ms, Front(turn), bound);
    }
  }

  lemma PlannedIsStampedIff(svc: Services, s: Settings, stored: seq<Message>, storedAnswer: string, existing: string, newId: string)
    requires Stored(stored)
    ensures var ms := Projected(stored, storedAnswer);
            Planned(svc, s, stored, storedAnswer, existing, newId) == Stamp(Outcome(svc, s, ms, existing).kept, newId) <==>
            Last(Buckets(svc, s, ms, existing)) == Keep
  {
    SplitKept(svc, s, stored, storedAnswer, existing);
    KeptOldHaveIds(svc, stored, Front(Buckets(svc, s, Projected(stored, storedAnswer), existing)));
  }

  /** The end of a turn: compress the projected history and build the patch for the stored one. */
  method FinalizeRespondTurn(svc: Services, s: Settings, stored: seq<Message>, storedAnswer: string, existing: string,
                             ghost newId: string)
    returns (updates: seq<Update>, kept: seq<Message>, summary: string)
    requires Stored(stored) && s.alwaysKeepRecent >= 1
    requires newId != "" && forall i :: 0 <= i < |stored| ==> stored[i].id != Some(newId)
    ensures ApplyUpdates(stored, updates, newId) == Some(Stamp(kept, newId))
    ensures kept == Outcome(svc, s, Projected(stored, storedAnswer), existing).kept
    ensures summary == FinalSummary(svc, s, Projected(stored, storedAnswer), existing)
    ensures kept != [] && Last(kept) == CompactMessage(svc, Message(None, AI, storedAnswer))
  {
    var projected := stored + [Message(None, AI, storedAnswer)];
    var result := RunCompression(svc, s, projected, existing);
    updates := BuildMessageUpdates(result, storedAnswer);
    kept, summary := result.kept, result.summary;
    PatchReproducesKeptIff(svc, s, stored, storedAnswer, existing, newId);
    LastSurvivesIffGradedKeep(svc, s, projected, existing);
    SplitKept(svc, s, stored, storedAnswer, existing);
  }
}
