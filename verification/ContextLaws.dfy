/** Context expansion and trimming in terms of the fields of chunks: which chunk is offered, in whose place, and why. */
module ContextLaws {
  import opened Sequences
  import opened Text
  import opened StableSort
  import opened RagContext

  // ----- A child and its parent

  /** A parent chunk with the id stands at `k`. */
  ghost predicate ParentAt(corpus: seq<Doc>, k: nat, id: string) {
    k < |corpus| && corpus[k].role == "parent" && corpus[k].parentId == id
  }

  /**
   `context` is what the prompt gets for a chunk: for a child whose non-empty parent id some parent chunk
   carries, the last such parent chunk; for every other chunk the chunk itself.
   */
  ghost predicate StandsFor(corpus: seq<Doc>, doc: Doc, context: Doc) {
    if doc.role == "child" && doc.parentId != "" && exists k: nat :: ParentAt(corpus, k, doc.parentId)
    then
      exists k: nat ::
        && ParentAt(corpus, k, doc.parentId) && context == corpus[k]
        && forall m :: k < m < |corpus| ==> !ParentAt(corpus, m, doc.parentId)
    else context == doc
  }

  lemma {:induction false} LastParent(corpus: seq<Doc>, id: string)
    ensures match ParentIn(corpus, id)
            case None => forall k: nat :: !ParentAt(corpus, k, id)
            case Some(doc) =>
              exists k: nat :: ParentAt(corpus, k, id) && doc == corpus[k] &&
                               forall m :: k < m < |corpus| ==> !ParentAt(corpus, m, id)
  {
    if corpus != [] {
      var front := Front(corpus);
      LastParent(front, id);
      assert forall k: nat :: k < |front| ==> (ParentAt(front, k, id) <==> ParentAt(corpus, k, id));
      if ParentAt(corpus, |front|, id) {
        assert ParentIn(corpus, id) == Some(corpus[|front|]);
      } else if k: nat :| ParentAt(front, k, id) && ParentIn(corpus, id) == Some(front[k]) &&
                          forall m :: k < m < |front| ==> !ParentAt(front, m, id) {
        assert ParentAt(corpus, k, id) && forall m :: k < m < |corpus| ==> !ParentAt(corpus, m, id);
      }
    }
  }

  /** There is one chunk to stand for another, and it is the one the expansion uses. */
  lemma ContextInFields(corpus: seq<Doc>, doc: Doc, context: Doc)
    ensures context == ContextDoc(corpus, doc) <==> StandsFor(corpus, doc, context)
  {
    LastParent(corpus, doc.parentId);
    if doc.role == "child" && doc.parentId != "" && ParentIn(corpus, doc.parentId).Some? && StandsFor(corpus, doc, context) {
      var k: nat :| ParentAt(corpus, k, doc.parentId) && context == corpus[k] &&
                    forall m :: k < m < |corpus| ==> !ParentAt(corpus, m, doc.parentId);
      var j: nat :| ParentAt(corpus, j, doc.parentId) && ParentIn(corpus, doc.parentId).value == corpus[j] &&
                    forall m :: j < m < |corpus| ==> !ParentAt(corpus, m, doc.parentId);
      assert !(j < k) && !(k < j);
    }
  }

  // ----- What is offered

  function Apart(a: int, b: int): nat {
    if a < b then b - a else a - b
  }

  /** The hit's own context. */
  ghost predicate FromHit(corpus: seq<Doc>, hit: Doc, item: Item) {
    item.tier == 0 && item.distance == 0 && StandsFor(corpus, hit, item.doc)
  }

  /** The context of another retrieval chunk, at `k`, of the same file and the same non-blank section. */
  ghost predicate FromSection(corpus: seq<Doc>, hit: Doc, k: nat, item: Item) {
    && k < |corpus| && corpus[k].role != "parent" && corpus[k].id != hit.id
    && hit.source != "" && Strip(hit.section) != "" && hit.chunk.Some?
    && corpus[k].source == hit.source && Strip(corpus[k].section) == Strip(hit.section)
    && item.tier == 1
    && item.distance == (if corpus[k].chunk.Some? then Apart(corpus[k].chunk.value, hit.chunk.value) else 0)
    && StandsFor(corpus, corpus[k], item.doc)
  }

  /** A retrieval chunk of the file stands at `k` with the number. */
  ghost predicate PlacedAt(corpus: seq<Doc>, k: nat, source: string, index: int) {
    k < |corpus| && corpus[k].role != "parent" && corpus[k].source == source && corpus[k].chunk == Some(index)
  }

  /**
   The context of the retrieval chunk of the same file whose number is at most `window` away, not none; of
   several chunks with that number the last one counts.
   */
  ghost predicate FromNeighbor(corpus: seq<Doc>, hit: Doc, k: nat, window: nat, item: Item) {
    && k < |corpus| && hit.source != "" && hit.chunk.Some? && hit.chunk.value >= 0 && corpus[k].chunk.Some?
    && PlacedAt(corpus, k, hit.source, corpus[k].chunk.value)
    && (forall m :: k < m < |corpus| ==> !PlacedAt(corpus, m, hit.source, corpus[k].chunk.value))
    && item.tier == 2 && 1 <= item.distance <= window
    && item.distance == Apart(corpus[k].chunk.value, hit.chunk.value)
    && StandsFor(corpus, corpus[k], item.doc)
  }

  ghost predicate OfferedInFields(corpus: seq<Doc>, hit: Doc, rank: nat, window: nat, item: Item) {
    && item.rank == rank
    && (|| FromHit(corpus, hit, item)
        || (exists k: nat :: FromSection(corpus, hit, k, item))
        || (exists k: nat :: FromNeighbor(corpus, hit, k, window, item)))
  }

  lemma SectionItemInFields(corpus: seq<Doc>, hit: Doc, rank: nat, k: nat, item: Item)
    requires k < |corpus|
    ensures item in SectionItem(corpus, hit, rank, corpus[k]) <==> item.rank == rank && FromSection(corpus, hit, k, item)
  {
    ContextInFields(corpus, corpus[k], item.doc);
  }

  lemma {:induction false} LastPlaced(corpus: seq<Doc>, source: string, index: int)
    ensures match ChunkAt(corpus, source, index)
            case None => forall k: nat :: !PlacedAt(corpus, k, source, index)
            case Some(doc) =>
              exists k: nat :: PlacedAt(corpus, k, source, index) && doc == corpus[k] &&
                               forall m :: k < m < |corpus| ==> !PlacedAt(corpus, m, source, index)
  {
    if corpus != [] {
      var front := Front(corpus);
      LastPlaced(front, source, index);
      assert forall k: nat :: k < |front| ==> (PlacedAt(front, k, source, index) <==> PlacedAt(corpus, k, source, index));
      if PlacedAt(corpus, |front|, source, index) {
        assert ChunkAt(corpus, source, index) == Some(corpus[|front|]);
      } else if k: nat :| PlacedAt(front, k, source, index) && ChunkAt(corpus, source, index) == Some(front[k]) &&
                          forall m :: k < m < |front| ==> !PlacedAt(front, m, source, index) {
        assert PlacedAt(corpus, k, source, index) && forall m :: k < m < |corpus| ==> !PlacedAt(corpus, m, source, index);
      }
    }
  }

  lemma NeighborItemInFields(corpus: seq<Doc>, hit: Doc, rank: nat, window: nat, offset: int, item: Item)
    requires 0 - window <= offset < window + 1 && item in NeighborItem(corpus, hit, rank, offset)
    ensures item.rank == rank && exists k: nat :: FromNeighbor(corpus, hit, k, window, item)
  {
    var index := hit.chunk.value + offset;
    LastPlaced(corpus, hit.source, index);
    var k: nat :| PlacedAt(corpus, k, hit.source, index) && ChunkAt(corpus, hit.source, index).value == corpus[k] &&
                  forall m :: k < m < |corpus| ==> !PlacedAt(corpus, m, hit.source, index);
    ContextInFields(corpus, corpus[k], item.doc);
    assert FromNeighbor(corpus, hit, k, window, item);
  }

  lemma NeighborIsOffered(corpus: seq<Doc>, hit: Doc, rank: nat, window: nat, k: nat, item: Item)
    requires item.rank == rank && FromNeighbor(corpus, hit, k, window, item)
    ensures exists offset :: 0 - window <= offset < window + 1 && item in NeighborItem(corpus, hit, rank, offset)
  {
    var index := corpus[k].chunk.value;
    var offset := index - hit.chunk.value;
    LastPlaced(corpus, hit.source, index);
    var j: nat :| PlacedAt(corpus, j, hit.source, index) && ChunkAt(corpus, hit.source, index).value == corpus[j] &&
                  forall m :: j < m < |corpus| ==> !PlacedAt(corpus, m, hit.source, index);
    assert !(j < k) && !(k < j);
    ContextInFields(corpus, corpus[k], item.doc);
    assert item in NeighborItem(corpus, hit, rank, offset);
  }

  lemma OfferedIff(corpus: seq<Doc>, hit: Doc, rank: nat, window: nat, item: Item)
    ensures Offered(corpus, hit, rank, window, item) <==> OfferedInFields(corpus, hit, rank, window, item)
  {
    ContextInFields(corpus, hit, item.doc);
    forall k: nat | k < |corpus|
      ensures item in SectionItem(corpus, hit, rank, corpus[k]) <==> item.rank == rank && FromSection(corpus, hit, k, item)
    {
      SectionItemInFields(corpus, hit, rank, k, item);
    }
    if offset :| 0 - window <= offset < window + 1 && item in NeighborItem(corpus, hit, rank, offset) {
      NeighborItemInFields(corpus, hit, rank, window, offset, item);
    }
    if k: nat :| item.rank == rank && FromNeighbor(corpus, hit, k, window, item) {
      NeighborIsOffered(corpus, hit, rank, window, k, item);
    }
  }

  /** The candidates are what some hit offers, in terms of chunk fields alone. */
  lemma CandidateInFields(corpus: seq<Doc>, hits: seq<Doc>, window: nat, item: Item)
    ensures item in Candidates(corpus, hits, window) <==>
              item.rank < |hits| && OfferedInFields(corpus, hits[item.rank], item.rank, window, item)
  {
    CandidateIff(corpus, hits, window, item);
    forall rank: nat | rank < |hits|
      ensures Offered(corpus, hits[rank], rank, window, item) <==> OfferedInFields(corpus, hits[rank], rank, window, item)
    {
      OfferedIff(corpus, hits[rank], rank, window, item);
    }
  }

  // ----- What the expansion holds

  /** A better hit comes first, then the hit before its section before its neighbours, then the smaller distance. */
  predicate Better(a: Item, b: Item) {
    a.rank < b.rank || (a.rank == b.rank && (a.tier < b.tier || (a.tier == b.tier && a.distance < b.distance)))
  }

  lemma BetterIsLess(a: Item, b: Item)
    ensures Better(a, b) <==> Less(Priority(a), Priority(b))
  {
    LessFromLeft(a.rank, [a.tier, a.distance], b.rank, [b.tier, b.distance]);
    LessFromLeft(a.tier, [a.distance], b.tier, [b.distance]);
    LessFromLeft(a.distance, [], b.distance, []);
    assert [a.rank] + [a.tier, a.distance] == Priority(a) && [b.rank] + [b.tier, b.distance] == Priority(b);
    assert [a.tier] + [a.distance] == [a.tier, a.distance] && [b.tier] + [b.distance] == [b.tier, b.distance];
    assert [a.distance] + [] == [a.distance] && [b.distance] + [] == [b.distance];
  }

  ghost predicate SameText(a: Item, b: Item) {
    a.doc.source == b.doc.source && a.doc.body == b.doc.body
  }

  /** An item is in the expansion only if some hit offers it and no better one is offered for the same text. */
  lemma ExpandedIsOffered(corpus: seq<Doc>, hits: seq<Doc>, neighbor: int, item: Item)
    requires item in Expanded(corpus, hits, neighbor)
    ensures var window := if neighbor < 0 then 0 else neighbor;
            && item.rank < |hits| && OfferedInFields(corpus, hits[item.rank], item.rank, window, item)
            && forall other: Item | other.rank < |hits| && SameText(other, item) ::
                 OfferedInFields(corpus, hits[other.rank], other.rank, window, other) ==> !Better(other, item)
  {
    var window := if neighbor < 0 then 0 else neighbor;
    var items := Candidates(corpus, hits, window);
    ExpandedIsBestPerDocument(corpus, hits, neighbor, item);
    BestOfIsFirstMinimum(items, KeyOf(item.doc));
    assert item in items;
    CandidateInFields(corpus, hits, window, item);
    forall other: Item | other.rank < |hits| && OfferedInFields(corpus, hits[other.rank], other.rank, window, other) &&
                         SameText(other, item)
      ensures !Better(other, item)
    {
      CandidateInFields(corpus, hits, window, other);
      var i :| 0 <= i < |items| && items[i] == other;
      BetterIsLess(other, item);
    }
  }

  /** For everything offered, the expansion holds its text once, offered at least as well. */
  lemma OfferedIsCovered(corpus: seq<Doc>, hits: seq<Doc>, neighbor: int, offered: Item) returns (item: Item)
    requires offered.rank < |hits|
    requires OfferedInFields(corpus, hits[offered.rank], offered.rank, if neighbor < 0 then 0 else neighbor, offered)
    ensures item in Expanded(corpus, hits, neighbor) && SameText(item, offered) && !Better(offered, item)
    ensures forall other :: other in Expanded(corpus, hits, neighbor) && SameText(other, offered) ==> other == item
  {
    var window := if neighbor < 0 then 0 else neighbor;
    var items := Candidates(corpus, hits, window);
    CandidateInFields(corpus, hits, window, offered);
    BestOfIsFirstMinimum(items, KeyOf(offered.doc));
    var i :| 0 <= i < |items| && items[i] == offered;
    item := BestOf(items, KeyOf(offered.doc)).value;
    ExpandedIsBestPerDocument(corpus, hits, neighbor, item);
    BetterIsLess(offered, item);
    forall other | other in Expanded(corpus, hits, neighbor) && SameText(other, offered) ensures other == item {
      ExpandedIsBestPerDocument(corpus, hits, neighbor, other);
    }
  }

  /** The expansion is ordered by that priority, and its first item is what stands for the best hit. */
  lemma ExpandedInOrder(corpus: seq<Doc>, hits: seq<Doc>, neighbor: int)
    ensures var items := Expanded(corpus, hits, neighbor);
            && (forall i, j :: 0 <= i < j < |items| ==> !Better(items[j], items[i]))
            && (hits != [] ==> items != [] && items[0].rank == 0 && FromHit(corpus, hits[0], items[0]))
  {
    var items := Expanded(corpus, hits, neighbor);
    OrderedKeepsItems(Selection(Candidates(corpus, hits, if neighbor < 0 then 0 else neighbor)));
    forall i, j | 0 <= i < j < |items| ensures !Better(items[j], items[i]) {
      BetterIsLess(items[j], items[i]);
    }
    if hits != [] {
      BestContextIsFirst(corpus, hits, neighbor);
      ContextInFields(corpus, hits[0], items[0].doc);
    }
  }

  // ----- What the trim keeps

  /** Tokens of a list of items as the prompt will show them: each with its file named above its text. */
  function PromptTokens(countTokens: string -> nat, items: seq<Item>): nat {
    if items == [] then 0
    else
      var doc := Last(items).doc;
      PromptTokens(countTokens, Front(items)) + countTokens("来源:" + doc.source + "\n" + doc.body)
  }

  lemma {:induction false} CostsArePromptTokens(countTokens: string -> nat, items: seq<Item>)
    ensures Sum(Costs(countTokens, items)) == PromptTokens(countTokens, items)
  {
    if items != [] {
      CostsArePromptTokens(countTokens, Front(items));
      assert Front(Costs(countTokens, items)) == Costs(countTokens, Front(items));
    }
  }

  lemma {:induction false} TakenPrefix(costs: seq<int>, budget: int, i: nat)
    requires i <= |costs|
    ensures Taken(costs, budget)[..i] == Taken(costs[..i], budget)
  {
    if i < |costs| {
      TakenPrefix(Front(costs), budget, i);
      assert Front(costs)[..i] == costs[..i];
      assert Taken(costs, budget)[..i] == Taken(Front(costs), budget)[..i];
    } else {
      assert costs[..i] == costs;
    }
  }

  lemma TakenAt(costs: seq<int>, budget: int, i: nat)
    requires i < |costs|
    ensures Taken(costs, budget)[i] <==> i == 0 || Spent(costs[..i], budget) + costs[i] <= budget
  {
    TakenPrefix(costs, budget, i + 1);
    SpentSnoc(costs[..i + 1], budget);
    assert Front(costs[..i + 1]) == costs[..i];
  }

  /**
   The trim, item by item in order of priority: the first one stays, and every further one stays exactly if
   with it the prompt would still be within the budget. A budget of zero or less cuts nothing.
   */
  lemma TrimInTokens(countTokens: string -> nat, items: seq<Item>, budget: int) returns (flags: seq<bool>)
    ensures var ordered := Ordered(items);
            && |flags| == |ordered|
            && Kept(countTokens, items, budget) == Pick(ordered, flags, true)
            && forall i :: 0 <= i < |ordered| ==>
                 (flags[i] <==>
                    budget <= 0 || i == 0 ||
                    PromptTokens(countTokens, Pick(ordered[..i], flags[..i], true)) +
                    countTokens("来源:" + ordered[i].doc.source + "\n" + ordered[i].doc.body) <= budget)
  {
    var ordered := Ordered(items);
    if budget <= 0 {
      flags := seq(|ordered|, _ => true);
      PickAll(ordered, flags, true);
      return;
    }
    var costs := Costs(countTokens, ordered);
    flags := Taken(costs, budget);
    forall i | 0 <= i < |ordered|
      ensures flags[i] <==> i == 0 || PromptTokens(countTokens, Pick(ordered[..i], flags[..i], true)) +
                                      countTokens("来源:" + ordered[i].doc.source + "\n" + ordered[i].doc.body) <= budget
    {
      TakenAt(costs, budget, i);
      SpentInTokens(countTokens, ordered, budget, i);
    }
  }

  lemma SpentInTokens(countTokens: string -> nat, ordered: seq<Item>, budget: int, i: nat)
    requires i <= |ordered|
    ensures var costs := Costs(countTokens, ordered);
            Spent(costs[..i], budget) ==
            PromptTokens(countTokens, Pick(ordered[..i], Taken(costs, budget)[..i], true))
  {
    var costs := Costs(countTokens, ordered);
    var picked := Pick(ordered[..i], Taken(costs, budget)[..i], true);
    TakenPrefix(costs, budget, i);
    assert costs[..i] == Costs(countTokens, ordered[..i]);
    CostsOfPicked(countTokens, ordered[..i], Taken(costs[..i], budget));
    CostsArePromptTokens(countTokens, picked);
  }

  // ----- The order of the prompt

  /** Keys made from two texts with one more number behind a mark below every code point. */
  lemma {:induction false} PlacesCompare(a: string, m: int, b: string, n: int)
    ensures Less(Codes(a) + [-1, m], Codes(b) + [-1, n]) <==> TextBefore(a, b) || (a == b && m < n)
  {
    var p, q := Codes(a) + [-1, m], Codes(b) + [-1, n];
    if a != "" && b != "" {
      var c, d := a[0] as int, b[0] as int;
      assert p == [c] + (Codes(a[1..]) + [-1, m]) && q == [d] + (Codes(b[1..]) + [-1, n]);
      LessFromLeft(c, Codes(a[1..]) + [-1, m], d, Codes(b[1..]) + [-1, n]);
      if a[0] == b[0] {
        PlacesCompare(a[1..], m, b[1..], n);
        TextBeforeTail(a, b);
        assert a == [a[0]] + a[1..] && b == [b[0]] + b[1..];
      } else {
        PartAtOnce(a, b);
      }
    } else if a == "" && b == "" {
      assert p == [-1] + [m] && q == [-1] + [n];
      LessFromLeft(-1, [m], -1, [n]);
      assert [m] == [m] + [] && [n] == [n] + [];
      LessFromLeft(m, [], n, []);
    } else {
      EmptyAgainstText(a, m, b, n);
    }
  }

  lemma EmptyAgainstText(a: string, m: int, b: string, n: int)
    requires (a == "") != (b == "")
    ensures Less(Codes(a) + [-1, m], Codes(b) + [-1, n]) <==> a == ""
    ensures TextBefore(a, b) <==> a == ""
  {
    assert a == "" ==> a[..0] == b[..0];
  }

  /** The documents of the prompt, whatever was kept: all of them, by file name and then by chunk number. */
  lemma PromptOrder(items: seq<Item>, i: nat, j: nat)
    requires i < j < |SortedDocs(items)|
    ensures |SortedDocs(items)| == |items|
    ensures var a, b := SortedDocs(items)[i], SortedDocs(items)[j];
            var m, n := if a.chunk.Some? then a.chunk.value else 1000000000, if b.chunk.Some? then b.chunk.value else 1000000000;
            !TextBefore(b.source, a.source) && (a.source == b.source ==> m <= n)
  {
    var keyed := PlacedDocs(items);
    SortIsStable(keyed);
    SortLength(keyed);
    var a, _ := SortMoves(keyed, i);
    var b, _ := SortMoves(keyed, j);
    assert Sort(keyed)[i].0 == Place(Sort(keyed)[i].1) && Sort(keyed)[j].0 == Place(Sort(keyed)[j].1);
    var x, y := SortedDocs(items)[i], SortedDocs(items)[j];
    PlacesCompare(y.source, if y.chunk.Some? then y.chunk.value else 1000000000,
                  x.source, if x.chunk.Some? then x.chunk.value else 1000000000);
  }

  function PlacedDocs(items: seq<Item>): seq<(Key, Doc)> {
    seq(|items|, i requires 0 <= i < |items| => (Place(items[i].doc), items[i].doc))
  }

  lemma ValuesSnoc<T>(xs: seq<(Key, T)>, x: (Key, T))
    ensures Values(xs + [x]) == Values(xs) + [x.1]
  {}

  lemma {:induction false} InsertKeepsValues<T>(xs: seq<(Key, T)>, x: (Key, T))
    ensures multiset(Values(Insert(xs, x))) == multiset(Values(xs)) + multiset{x.1}
  {
    if xs != [] && Less(x.0, Last(xs).0) {
      InsertKeepsValues(Front(xs), x);
      ValuesSnoc(Insert(Front(xs), x), Last(xs));
      ValuesSnoc(Front(xs), Last(xs));
      assert xs == Front(xs) + [Last(xs)];
    } else {
      ValuesSnoc(xs, x);
    }
  }

  lemma {:induction false} SortKeepsValues<T>(xs: seq<(Key, T)>)
    ensures multiset(Values(Sort(xs))) == multiset(Values(xs))
  {
    if xs != [] {
      SortKeepsValues(Front(xs));
      InsertKeepsValues(Sort(Front(xs)), Last(xs));
      ValuesSnoc(Front(xs), Last(xs));
      assert xs == Front(xs) + [Last(xs)];
    }
  }

  /** No document is lost or doubled by the ordering. */
  lemma PromptHoldsAll(items: seq<Item>, docs: seq<Doc>)
    requires |docs| == |items| && forall i :: 0 <= i < |items| ==> docs[i] == items[i].doc
    ensures multiset(SortedDocs(items)) == multiset(docs)
  {
    var keyed := PlacedDocs(items);
    SortKeepsValues(keyed);
    assert Values(keyed) == docs;
  }
}
