/** Widening search hits to their surroundings, and cutting the result to a token budget. */
module RagContext {
  import opened Sequences
  import opened StableSort
  import opened Text

  /** A chunk of a course file; `id` is the identity of the object, `role` is empty when not recorded. */
  datatype Doc = Doc(
    id: nat, source: string, body: string, chunk: Option<int>, section: string, role: string, parentId: string)

  /** A context candidate: `tier` is 0 for the hit, 1 for its section, 2 for a neighbour. */
  datatype Item = Item(doc: Doc, rank: nat, tier: nat, distance: nat)

  type DocKey = (string, string)

  function KeyOf(doc: Doc): DocKey {
    (doc.source, doc.body)
  }

  function Priority(item: Item): Key {
    [item.rank, item.tier, item.distance]
  }

  // ----- Candidates of one hit

  predicate IsRetrievalChunk(doc: Doc) {
    doc.role != "parent"
  }

  function SectionKey(doc: Doc): Option<(string, string)> {
    if doc.source == "" || Strip(doc.section) == "" then None else Some((doc.source, Strip(doc.section)))
  }

  /** The parent chunk with the id; of several the last. */
  function ParentIn(corpus: seq<Doc>, id: string): Option<Doc> {
    if corpus == [] then None
    else if Last(corpus).role == "parent" && Last(corpus).parentId == id then Some(Last(corpus))
    else ParentIn(Front(corpus), id)
  }

  /** What stands in the context for a chunk: its parent, if it is a child whose parent is known. */
  function ContextDoc(corpus: seq<Doc>, doc: Doc): Doc {
    if doc.role == "child" && doc.parentId != "" && ParentIn(corpus, doc.parentId).Some?
    then ParentIn(corpus, doc.parentId).value else doc
  }

  /** The retrieval chunk at a place of a file; of several the last. */
  function ChunkAt(corpus: seq<Doc>, source: string, index: int): Option<Doc> {
    if corpus == [] then None
    else
      var doc := Last(corpus);
      if IsRetrievalChunk(doc) && doc.source == source && doc.chunk == Some(index) then Some(doc)
      else ChunkAt(Front(corpus), source, index)
  }

  function Distance(a: int, b: int): nat {
    if a < b then b - a else a - b
  }

  function SectionItem(corpus: seq<Doc>, hit: Doc, rank: nat, doc: Doc): seq<Item> {
    if IsRetrievalChunk(doc) && SectionKey(hit).Some? && SectionKey(doc) == SectionKey(hit) && hit.chunk.Some? && doc.id != hit.id
    then [Item(ContextDoc(corpus, doc), rank, 1, if doc.chunk.Some? then Distance(doc.chunk.value, hit.chunk.value) else 0)]
    else []
  }

  /** Candidates from the hit's section, over a first part of the corpus. */
  function SectionItems(corpus: seq<Doc>, hit: Doc, rank: nat, part: seq<Doc>): seq<Item> {
    if part == [] then [] else SectionItems(corpus, hit, rank, Front(part)) + SectionItem(corpus, hit, rank, Last(part))
  }

  function NeighborItem(corpus: seq<Doc>, hit: Doc, rank: nat, offset: int): seq<Item> {
    if offset != 0 && hit.source != "" && hit.chunk.Some? && hit.chunk.value >= 0
       && ChunkAt(corpus, hit.source, hit.chunk.value + offset).Some?
    then [Item(ContextDoc(corpus, ChunkAt(corpus, hit.source, hit.chunk.value + offset).value), rank, 2, Distance(offset, 0))]
    else []
  }

  /** Candidates next to the hit, for the offsets from `low` up to but not including `high`. */
  function NeighborItems(corpus: seq<Doc>, hit: Doc, rank: nat, low: int, high: int): seq<Item>
    decreases high - low
  {
    if high <= low then []
    else NeighborItems(corpus, hit, rank, low, high - 1) + NeighborItem(corpus, hit, rank, high - 1)
  }

  function HitItem(corpus: seq<Doc>, hit: Doc, rank: nat): Item {
    Item(ContextDoc(corpus, hit), rank, 0, 0)
  }

  function HitItems(corpus: seq<Doc>, hit: Doc, rank: nat, window: nat): seq<Item> {
    [HitItem(corpus, hit, rank)] + SectionItems(corpus, hit, rank, corpus) +
    NeighborItems(corpus, hit, rank, 0 - window, window + 1)
  }

  /** All candidates in the order they are considered. */
  function Candidates(corpus: seq<Doc>, hits: seq<Doc>, window: nat): seq<Item> {
    if hits == [] then []
    else Candidates(corpus, Front(hits), window) + HitItems(corpus, Last(hits), |hits| - 1, window)
  }

  // ----- One item per document

  function Keys(items: seq<Item>): seq<DocKey> {
    seq(|items|, i requires 0 <= i < |items| => KeyOf(items[i].doc))
  }

  /** The item takes the place of the one with its key where its priority is better. */
  function Improved(selected: seq<Item>, item: Item): seq<Item> {
    seq(|selected|, i requires 0 <= i < |selected| =>
      if KeyOf(selected[i].doc) == KeyOf(item.doc) && Less(Priority(item), Priority(selected[i])) then item else selected[i])
  }

  /** Offer an item to the selection; a new key goes to the end. */
  function Considered(selected: seq<Item>, item: Item): seq<Item> {
    if KeyOf(item.doc) in Keys(selected) then Improved(selected, item) else selected + [item]
  }

  function Selection(items: seq<Item>): seq<Item> {
    if items == [] then [] else Considered(Selection(Front(items)), Last(items))
  }

  /** The best of the items with the key; of equally good ones the first. */
  function BestOf(items: seq<Item>, key: DocKey): Option<Item> {
    if items == [] then None
    else
      var best, item := BestOf(Front(items), key), Last(items);
      if KeyOf(item.doc) == key && (best.None? || Less(Priority(item), Priority(best.value))) then Some(item) else best
  }

  /** The keys in the order in which they first occur. */
  function KeyOrder(items: seq<Item>): seq<DocKey> {
    if items == [] then []
    else if KeyOf(Last(items).doc) in KeyOrder(Front(items)) then KeyOrder(Front(items))
    else KeyOrder(Front(items)) + [KeyOf(Last(items).doc)]
  }

  ghost predicate Distinct<T>(xs: seq<T>) {
    forall i, j :: 0 <= i < j < |xs| ==> xs[i] != xs[j]
  }

  lemma {:induction false} BestOfIsFirstMinimum(items: seq<Item>, key: DocKey)
    ensures match BestOf(items, key)
            case None => forall i :: 0 <= i < |items| ==> KeyOf(items[i].doc) != key
            case Some(best) =>
              && KeyOf(best.doc) == key
              && (exists i :: 0 <= i < |items| && items[i] == best &&
                    (forall j :: 0 <= j < i && KeyOf(items[j].doc) == key ==> Less(Priority(best), Priority(items[j]))))
              && (forall i :: 0 <= i < |items| && KeyOf(items[i].doc) == key ==> !Less(Priority(items[i]), Priority(best)))
  {
    if items != [] {
      var front, item := Front(items), Last(items);
      BestOfIsFirstMinimum(front, key);
      assert forall i :: 0 <= i < |front| ==> front[i] == items[i];
      LessIsTotal(Priority(item), Priority(item));
      var best := BestOf(front, key);
      if KeyOf(item.doc) == key && best.Some? {
        LessIsTotal(Priority(item), Priority(best.value));
        if Less(Priority(item), Priority(best.value)) {
          forall i | 0 <= i < |front| && KeyOf(front[i].doc) == key
            ensures Less(Priority(item), Priority(front[i])) && !Less(Priority(front[i]), Priority(item))
          {
            StillLess(Priority(item), Priority(best.value), Priority(front[i]));
          }
        }
      }
      if BestOf(items, key) == Some(item) {
        assert items[|front|] == item;
      } else if best.Some? {
        var i :| 0 <= i < |front| && front[i] == best.value &&
                 (forall j :: 0 <= j < i && KeyOf(front[j].doc) == key ==> Less(Priority(best.value), Priority(front[j])));
        assert items[i] == best.value;
      }
    }
  }

  lemma StillLess(a: Key, b: Key, c: Key)
    requires Less(a, b) && !Less(c, b)
    ensures Less(a, c) && !Less(c, a)
  {
    LessIsTotal(a, b);
    LessIsTotal(a, c);
    LessIsTotal(b, c);
    if !Less(a, c) {
      LessIsTransitive(c, a, b);
      LessIsTotal(c, a);
      LessIsTransitive(b, c, a);
    }
  }

  /** The selection is a group-by-minimum: one item per key, the best, in the order the keys first occur. */
  lemma {:induction false} SelectionIsGroupByMinimum(items: seq<Item>)
    ensures Keys(Selection(items)) == KeyOrder(items) && Distinct(KeyOrder(items))
    ensures forall i :: 0 <= i < |Selection(items)| ==>
              BestOf(items, KeyOf(Selection(items)[i].doc)) == Some(Selection(items)[i])
    ensures forall i :: 0 <= i < |items| ==> KeyOf(items[i].doc) in KeyOrder(items)
  {
    if items != [] {
      var front, item := Front(items), Last(items);
      var selected, key := Selection(front), KeyOf(Last(items).doc);
      SelectionIsGroupByMinimum(front);
      BestOfIsFirstMinimum(front, key);
      assert forall i :: 0 <= i < |front| ==> front[i] == items[i];
      var now := Selection(items);
      assert now == Considered(selected, item);
      if key in Keys(selected) {
        assert Keys(now) == Keys(selected);
        forall i | 0 <= i < |now| ensures BestOf(items, KeyOf(now[i].doc)) == Some(now[i]) {
          assert BestOf(front, KeyOf(selected[i].doc)) == Some(selected[i]);
        }
      } else {
        assert Keys(now) == Keys(selected) + [key];
        forall i | 0 <= i < |selected| ensures BestOf(items, KeyOf(now[i].doc)) == Some(now[i]) {
          assert Keys(selected)[i] == KeyOf(selected[i].doc);
          assert BestOf(front, KeyOf(selected[i].doc)) == Some(selected[i]);
        }
        NoneBest(front, key);
      }
    }
  }

  lemma {:induction false} NoneBest(items: seq<Item>, key: DocKey)
    requires forall i :: 0 <= i < |items| ==> KeyOf(items[i].doc) != key
    ensures BestOf(items, key) == None
  {
    if items != [] {
      NoneBest(Front(items), key);
    }
  }

  /** An item is selected exactly if it is the best for its document. */
  lemma SelectedIffBest(items: seq<Item>, item: Item)
    ensures item in Selection(items) <==> BestOf(items, KeyOf(item.doc)) == Some(item)
  {
    var selected := Selection(items);
    SelectionIsGroupByMinimum(items);
    if BestOf(items, KeyOf(item.doc)) == Some(item) {
      BestIsThere(items, item);
      var k :| 0 <= k < |selected| && Keys(selected)[k] == KeyOf(item.doc);
      assert selected[k] == item;
    }
    if item in selected {
      var k :| 0 <= k < |selected| && selected[k] == item;
      assert BestOf(items, KeyOf(selected[k].doc)) == Some(selected[k]);
    }
  }

  lemma {:induction false} BestIsThere(items: seq<Item>, item: Item)
    requires BestOf(items, KeyOf(item.doc)) == Some(item)
    ensures KeyOf(item.doc) in KeyOrder(items)
  {
    if BestOf(Front(items), KeyOf(item.doc)) == Some(item) {
      BestIsThere(Front(items), item);
    }
  }

  // ----- Order of priority

  function Keyed(items: seq<Item>): (keyed: seq<(Key, Item)>)
    ensures |keyed| == |items| && forall i :: 0 <= i < |items| ==> keyed[i] == (Priority(items[i]), items[i])
  {
    seq(|items|, i requires 0 <= i < |items| => (Priority(items[i]), items[i]))
  }

  function Values<T>(keyed: seq<(Key, T)>): seq<T> {
    seq(|keyed|, i requires 0 <= i < |keyed| => keyed[i].1)
  }

  function Ordered(items: seq<Item>): seq<Item> {
    Values(Sort(Keyed(items)))
  }

  function Expanded(corpus: seq<Doc>, hits: seq<Doc>, neighbor: int): seq<Item> {
    Ordered(Selection(Candidates(corpus, hits, if neighbor < 0 then 0 else neighbor)))
  }

  ghost predicate InOrder(items: seq<Item>) {
    forall i, j :: 0 <= i < j < |items| ==> !Less(Priority(items[j]), Priority(items[i]))
  }

  lemma ValuesInOrder(keyed: seq<(Key, Item)>)
    requires Ascending(keyed) && forall i :: 0 <= i < |keyed| ==> keyed[i].0 == Priority(keyed[i].1)
    ensures InOrder(Values(keyed))
  {
    forall i, j | 0 <= i < j < |keyed| ensures !Less(Priority(Values(keyed)[j]), Priority(Values(keyed)[i])) {
      assert keyed[j].0 == Priority(keyed[j].1);
    }
  }

  lemma OrderedMoves(items: seq<Item>, i: nat) returns (from: nat, to: nat)
    requires i < |items|
    ensures |Ordered(items)| == |items| && from < |items| && to < |items|
    ensures items[from] == Ordered(items)[i] && Ordered(items)[to] == items[i]
  {
    from, to := SortMoves(Keyed(items), i);
  }

  /** Ordering keeps the same items, in ascending priority. */
  lemma OrderedKeepsItems(items: seq<Item>)
    ensures |Ordered(items)| == |items| && InOrder(Ordered(items))
    ensures forall item :: item in Ordered(items) <==> item in items
  {
    var keyed := Keyed(items);
    SortIsStable(keyed);
    SortLength(keyed);
    forall i | 0 <= i < |keyed| ensures Sort(keyed)[i].0 == Priority(Sort(keyed)[i].1) {
      var from, _ := SortMoves(keyed, i);
    }
    ValuesInOrder(Sort(keyed));
    SameMembers(items);
  }

  lemma SameMembers(items: seq<Item>)
    ensures forall item :: item in Ordered(items) <==> item in items
  {
    SortLength(Keyed(items));
    forall item | item in items ensures item in Ordered(items) {
      var i :| 0 <= i < |items| && items[i] == item;
      var _, to := OrderedMoves(items, i);
    }
    forall item | item in Ordered(items) ensures item in items {
      var i :| 0 <= i < |items| && Ordered(items)[i] == item;
      var from, _ := OrderedMoves(items, i);
    }
  }

  /** Items already in order stay as they are. */
  lemma OrderedAgain(items: seq<Item>)
    requires InOrder(items)
    ensures Ordered(items) == items
  {
    SortOfSorted(Keyed(items));
  }

  // ----- The context of the best hit

  /** The first item has a better priority than every other. */
  ghost predicate Leads(items: seq<Item>) {
    items != [] && forall i :: 0 < i < |items| ==> Less(Priority(items[0]), Priority(items[i]))
  }

  lemma {:induction false} SectionItemsBehind(corpus: seq<Doc>, hit: Doc, rank: nat, part: seq<Doc>)
    ensures forall item :: item in SectionItems(corpus, hit, rank, part) ==> item.rank == rank && item.tier == 1
  {
    if part != [] { SectionItemsBehind(corpus, hit, rank, Front(part)); }
  }

  lemma {:induction false} NeighborItemsBehind(corpus: seq<Doc>, hit: Doc, rank: nat, low: int, high: int)
    ensures forall item :: item in NeighborItems(corpus, hit, rank, low, high) ==> item.rank == rank && item.tier == 2
    decreases high - low
  {
    if low < high { NeighborItemsBehind(corpus, hit, rank, low, high - 1); }
  }

  lemma {:induction false} BestHitLeads(corpus: seq<Doc>, hits: seq<Doc>, window: nat)
    requires hits != []
    ensures Candidates(corpus, hits, window) != [] && Candidates(corpus, hits, window)[0] == HitItem(corpus, hits[0], 0)
    ensures Leads(Candidates(corpus, hits, window))
  {
    var rank := |hits| - 1;
    SectionItemsBehind(corpus, Last(hits), rank, corpus);
    NeighborItemsBehind(corpus, Last(hits), rank, 0 - window, window + 1);
    var items := HitItems(corpus, Last(hits), rank, window);
    forall i | 0 < i < |items| ensures items[i].rank == rank && items[i].tier > 0 {
      assert items[i] in SectionItems(corpus, Last(hits), rank, corpus) + NeighborItems(corpus, Last(hits), rank, 0 - window, window + 1);
    }
    if rank > 0 {
      BestHitLeads(corpus, Front(hits), window);
    }
  }

  lemma {:induction false} LeaderStays(items: seq<Item>)
    requires Leads(items)
    ensures Leads(Selection(items)) && Selection(items)[0] == items[0]
  {
    if |items| > 1 {
      var front := Front(items);
      assert Leads(front);
      LeaderStays(front);
      LessIsTotal(Priority(items[0]), Priority(Last(items)));
    } else {
      assert Front(items) == [];
    }
  }

  lemma LeaderIsFirst(items: seq<Item>)
    requires Leads(items)
    ensures Ordered(items) != [] && Ordered(items)[0] == items[0]
  {
    OrderedKeepsItems(items);
    var from, to := OrderedMoves(items, 0);
    if to > 0 {
      assert !Less(Priority(Ordered(items)[to]), Priority(Ordered(items)[0]));
    }
    LessIsTotal(Priority(items[0]), Priority(items[from]));
  }

  /** Expansion puts the context of the best hit first, in front of everything found around any hit. */
  lemma BestContextIsFirst(corpus: seq<Doc>, hits: seq<Doc>, neighbor: int)
    requires hits != []
    ensures Expanded(corpus, hits, neighbor) != []
    ensures Expanded(corpus, hits, neighbor)[0] == HitItem(corpus, hits[0], 0)
  {
    var window := if neighbor < 0 then 0 else neighbor;
    BestHitLeads(corpus, hits, window);
    LeaderStays(Candidates(corpus, hits, window));
    LeaderIsFirst(Selection(Candidates(corpus, hits, window)));
  }

  /** Expansion holds, for every candidate's document, the best candidate for it, and nothing else. */
  lemma ExpandedIsBestPerDocument(corpus: seq<Doc>, hits: seq<Doc>, neighbor: int, item: Item)
    ensures InOrder(Expanded(corpus, hits, neighbor))
    ensures item in Expanded(corpus, hits, neighbor) <==>
              BestOf(Candidates(corpus, hits, if neighbor < 0 then 0 else neighbor), KeyOf(item.doc)) == Some(item)
  {
    var items := Candidates(corpus, hits, if neighbor < 0 then 0 else neighbor);
    OrderedKeepsItems(Selection(items));
    SelectedIffBest(items, item);
  }

  // ----- Cutting to the budget

  /** Which items the scan takes: the first whatever it costs, then every one that still fits. */
  function Taken(costs: seq<int>, budget: int): (flags: seq<bool>)
    ensures |flags| == |costs|
    decreases costs, 0
  {
    if costs == [] then []
    else
      var front := Front(costs);
      Taken(front, budget) + [front == [] || Spent(front, budget) + Last(costs) <= budget]
  }

  function Spent(costs: seq<int>, budget: int): int
    decreases costs, 1
  {
    Sum(Pick(costs, Taken(costs, budget), true))
  }

  ghost predicate NonNegative(costs: seq<int>) {
    forall i :: 0 <= i < |costs| ==> costs[i] >= 0
  }

  /** The first item is taken, and the budget holds unless that item alone breaks it. */
  lemma {:induction false} FirstIsTaken(costs: seq<int>, budget: int)
    requires costs != []
    ensures Taken(costs, budget)[0]
    ensures Spent(costs, budget) <= budget || Pick(costs, Taken(costs, budget), true) == [costs[0]]
  {
    SpentSnoc(costs, budget);
    if |costs| > 1 {
      FirstIsTaken(Front(costs), budget);
    }
  }

  /** Nothing dropped would still fit. */
  lemma {:induction false} DroppedDoesNotFit(costs: seq<int>, budget: int, i: nat)
    requires NonNegative(costs) && i < |costs| && !Taken(costs, budget)[i]
    ensures Spent(costs, budget) + costs[i] > budget
  {
    SpentSnoc(costs, budget);
    if i < |costs| - 1 {
      DroppedDoesNotFit(Front(costs), budget, i);
    }
  }

  lemma SpentSnoc(costs: seq<int>, budget: int)
    requires costs != []
    ensures var front, last := Front(costs), Last(costs);
            var taken := front == [] || Spent(front, budget) + last <= budget;
            && Taken(costs, budget) == Taken(front, budget) + [taken]
            && Pick(costs, Taken(costs, budget), true) ==
               Pick(front, Taken(front, budget), true) + (if taken then [last] else [])
            && Spent(costs, budget) == Spent(front, budget) + (if taken then last else 0)
  {
    var front := Front(costs);
    var picked := Pick(front, Taken(front, budget), true);
    assert Front(Taken(costs, budget)) == Taken(front, budget);
    assert Front(picked + [Last(costs)]) == picked && picked + [] == picked;
  }

  function Chunk(doc: Doc): string {
    "来源:" + doc.source + "\n" + doc.body
  }

  function Costs(countTokens: string -> nat, items: seq<Item>): (costs: seq<int>)
    ensures |costs| == |items| && forall i :: 0 <= i < |items| ==> costs[i] == countTokens(Chunk(items[i].doc))
    ensures NonNegative(costs)
  {
    seq(|items|, i requires 0 <= i < |items| => countTokens(Chunk(items[i].doc)))
  }

  function Kept(countTokens: string -> nat, items: seq<Item>, budget: int): seq<Item> {
    if budget <= 0 then Ordered(items)
    else Pick(Ordered(items), Taken(Costs(countTokens, Ordered(items)), budget), true)
  }

  lemma {:induction false} CostsOfPicked(countTokens: string -> nat, items: seq<Item>, flags: seq<bool>)
    requires |items| == |flags|
    ensures Costs(countTokens, Pick(items, flags, true)) == Pick(Costs(countTokens, items), flags, true)
  {
    if items != [] {
      var costs, front := Costs(countTokens, items), Front(items);
      CostsOfPicked(countTokens, front, Front(flags));
      assert Front(costs) == Costs(countTokens, front);
      var more := if Last(flags) then [Last(items)] else [];
      assert Costs(countTokens, Pick(front, Front(flags), true) + more) ==
             Costs(countTokens, Pick(front, Front(flags), true)) + Costs(countTokens, more);
    }
  }

  /** A document's place for the prompt: by file, then by chunk, chunks without a number last. */
  function Place(doc: Doc): Key {
    Codes(doc.source) + [-1, if doc.chunk.Some? then doc.chunk.value else 1000000000]
  }

  function SortedDocs(items: seq<Item>): seq<Doc> {
    Values(Sort(seq(|items|, i requires 0 <= i < |items| => (Place(items[i].doc), items[i].doc))))
  }

  /** The trim, from the expansion of at least one hit: what is promised of the documents that remain. */
  lemma TrimmedContext(countTokens: string -> nat, corpus: seq<Doc>, hits: seq<Doc>, neighbor: int, budget: int)
    requires hits != []
    ensures var items := Expanded(corpus, hits, neighbor);
            var kept := Kept(countTokens, items, budget);
            && kept != [] && kept[0] == HitItem(corpus, hits[0], 0)
            && (budget <= 0 ==> kept == items)
            && (budget > 0 ==>
                  && (Sum(Costs(countTokens, kept)) <= budget || |kept| == 1)
                  && (forall item :: item in items && item !in kept ==>
                        Sum(Costs(countTokens, kept)) + countTokens(Chunk(item.doc)) > budget))
  {
    var items := Expanded(corpus, hits, neighbor);
    BestContextIsFirst(corpus, hits, neighbor);
    OrderedKeepsItems(Selection(Candidates(corpus, hits, if neighbor < 0 then 0 else neighbor)));
    OrderedAgain(items);
    if budget > 0 {
      KeptLaw(countTokens, items, budget);
    }
  }

  lemma KeptLaw(countTokens: string -> nat, items: seq<Item>, budget: int)
    requires items != [] && budget > 0
    ensures Ordered(items) != []
    ensures var kept := Kept(countTokens, items, budget);
            && kept != [] && kept[0] == Ordered(items)[0]
            && (Sum(Costs(countTokens, kept)) <= budget || |kept| == 1)
            && (forall item :: item in Ordered(items) && item !in kept ==>
                  Sum(Costs(countTokens, kept)) + countTokens(Chunk(item.doc)) > budget)
  {
    OrderedKeepsItems(items);
    PickedLaw(countTokens, Ordered(items), budget);
  }

  lemma PickedLaw(countTokens: string -> nat, ordered: seq<Item>, budget: int)
    requires ordered != []
    ensures var kept := Pick(ordered, Taken(Costs(countTokens, ordered), budget), true);
            && kept != [] && kept[0] == ordered[0]
            && (Sum(Costs(countTokens, kept)) <= budget || |kept| == 1)
            && (forall item :: item in ordered && item !in kept ==>
                  Sum(Costs(countTokens, kept)) + countTokens(Chunk(item.doc)) > budget)
  {
    var costs := Costs(countTokens, ordered);
    var flags := Taken(costs, budget);
    FirstIsTaken(costs, budget);
    CostsOfPicked(countTokens, ordered, flags);
    PickPrefix(ordered, flags, true, 0);
    PickLength(ordered, costs, flags, true);
    forall item | item in ordered && item !in Pick(ordered, flags, true)
      ensures Spent(costs, budget) + countTokens(Chunk(item.doc)) > budget
    {
      var i :| 0 <= i < |ordered| && ordered[i] == item;
      if flags[i] {
        PickPrefix(ordered, flags, true, i);
      } else {
        DroppedDoesNotFit(costs, budget, i);
      }
    }
  }

  // ----- Which candidates there are

  lemma {:induction false} SectionItemsIff(corpus: seq<Doc>, hit: Doc, rank: nat, part: seq<Doc>, item: Item)
    ensures item in SectionItems(corpus, hit, rank, part) <==>
              exists k :: 0 <= k < |part| && item in SectionItem(corpus, hit, rank, part[k])
  {
    if part != [] {
      SectionItemsIff(corpus, hit, rank, Front(part), item);
      assert forall k :: 0 <= k < |part| - 1 ==> Front(part)[k] == part[k];
      if item in SectionItem(corpus, hit, rank, Last(part)) {
        assert item in SectionItem(corpus, hit, rank, part[|part| - 1]);
      }
    }
  }

  lemma {:induction false} NeighborItemsIff(corpus: seq<Doc>, hit: Doc, rank: nat, low: int, high: int, item: Item)
    ensures item in NeighborItems(corpus, hit, rank, low, high) <==>
              exists offset :: low <= offset < high && item in NeighborItem(corpus, hit, rank, offset)
    decreases high - low
  {
    if low < high {
      NeighborItemsIff(corpus, hit, rank, low, high - 1, item);
    }
  }

  /** Offered for a hit: its own context, its section's chunks, its neighbours in the window. */
  ghost predicate Offered(corpus: seq<Doc>, hit: Doc, rank: nat, window: nat, item: Item) {
    || item == HitItem(corpus, hit, rank)
    || (exists k :: 0 <= k < |corpus| && item in SectionItem(corpus, hit, rank, corpus[k]))
    || (exists offset :: 0 - window <= offset < window + 1 && item in NeighborItem(corpus, hit, rank, offset))
  }

  lemma HitItemsIff(corpus: seq<Doc>, hit: Doc, rank: nat, window: nat, item: Item)
    ensures item in HitItems(corpus, hit, rank, window) <==> Offered(corpus, hit, rank, window, item)
  {
    SectionItemsIff(corpus, hit, rank, corpus, item);
    NeighborItemsIff(corpus, hit, rank, 0 - window, window + 1, item);
  }

  lemma {:induction false} CandidateIff(corpus: seq<Doc>, hits: seq<Doc>, window: nat, item: Item)
    ensures item in Candidates(corpus, hits, window) <==>
              exists rank :: 0 <= rank < |hits| && Offered(corpus, hits[rank], rank, window, item)
  {
    if hits != [] {
      CandidateIff(corpus, Front(hits), window, item);
      HitItemsIff(corpus, Last(hits), |hits| - 1, window, item);
      OfferedSnoc(corpus, hits, window, item);
    }
  }

  lemma OfferedSnoc(corpus: seq<Doc>, hits: seq<Doc>, window: nat, item: Item)
    requires hits != []
    ensures (exists rank :: 0 <= rank < |hits| && Offered(corpus, hits[rank], rank, window, item)) <==>
              || (exists rank :: 0 <= rank < |Front(hits)| && Offered(corpus, Front(hits)[rank], rank, window, item))
              || Offered(corpus, Last(hits), |hits| - 1, window, item)
  {
    var front := Front(hits);
    if rank :| 0 <= rank < |front| && Offered(corpus, front[rank], rank, window, item) {
      assert Offered(corpus, hits[rank], rank, window, item);
    }
    if Offered(corpus, Last(hits), |hits| - 1, window, item) {
      assert Offered(corpus, hits[|hits| - 1], |hits| - 1, window, item);
    }
    if rank :| 0 <= rank < |hits| && Offered(corpus, hits[rank], rank, window, item) {
      assert rank < |front| ==> Offered(corpus, front[rank], rank, window, item);
    }
  }

  // ----- The two operations

  /** The retrieval chunks of one section, in order. */
  function InSection(docs: seq<Doc>, key: (string, string)): seq<Doc> {
    if docs == [] then []
    else
      InSection(Front(docs), key) +
      (if IsRetrievalChunk(Last(docs)) && SectionKey(Last(docs)) == Some(key) then [Last(docs)] else [])
  }

  lemma {:induction false} SectionItemsOfSection(corpus: seq<Doc>, hit: Doc, rank: nat, part: seq<Doc>)
    requires SectionKey(hit).Some?
    ensures SectionItems(corpus, hit, rank, InSection(part, SectionKey(hit).value)) == SectionItems(corpus, hit, rank, part)
  {
    if part != [] {
      var key := SectionKey(hit).value;
      SectionItemsOfSection(corpus, hit, rank, Front(part));
      var items := SectionItems(corpus, hit, rank, Front(part));
      assert items + [] == items;
      if IsRetrievalChunk(Last(part)) && SectionKey(Last(part)) == Some(key) {
        assert Front(InSection(part, key)) == InSection(Front(part), key);
      } else {
        assert InSection(part, key) == InSection(Front(part), key);
      }
    }
  }

  lemma {:induction false} NoSectionItems(corpus: seq<Doc>, hit: Doc, rank: nat, part: seq<Doc>)
    requires SectionKey(hit).None? || hit.chunk.None?
    ensures SectionItems(corpus, hit, rank, part) == []
  {
    if part != [] { NoSectionItems(corpus, hit, rank, Front(part)); }
  }

  lemma {:induction false} NoNeighborItems(corpus: seq<Doc>, hit: Doc, rank: nat, low: int, high: int)
    requires hit.source == "" || hit.chunk.None? || hit.chunk.value < 0
    ensures NeighborItems(corpus, hit, rank, low, high) == []
    decreases high - low
  {
    if low < high { NoNeighborItems(corpus, hit, rank, low, high - 1); }
  }

  ghost predicate ParentsOf(parents: map<string, Doc>, corpus: seq<Doc>) {
    forall id :: id != "" ==>
      (id in parents <==> ParentIn(corpus, id).Some?) && (id in parents ==> ParentIn(corpus, id) == Some(parents[id]))
  }

  method ParentLookup(corpus: seq<Doc>) returns (parents: map<string, Doc>)
    ensures ParentsOf(parents, corpus)
  {
    parents := map[];
    for i := 0 to |corpus|
      invariant ParentsOf(parents, corpus[..i])
    {
      assert Front(corpus[..i + 1]) == corpus[..i];
      if corpus[i].role == "parent" && corpus[i].parentId != "" {
        parents := parents[corpus[i].parentId := corpus[i]];
      }
    }
    assert corpus[..|corpus|] == corpus;
  }

  ghost predicate PlacesOf(byPlace: map<(string, int), Doc>, corpus: seq<Doc>) {
    forall source, index :: source != "" ==>
      ((source, index) in byPlace <==> ChunkAt(corpus, source, index).Some?) &&
      ((source, index) in byPlace ==> ChunkAt(corpus, source, index) == Some(byPlace[(source, index)]))
  }

  ghost predicate SectionsOf(bySection: map<(string, string), seq<Doc>>, corpus: seq<Doc>) {
    forall key :: InSection(corpus, key) == if key in bySection then bySection[key] else []
  }

  method IndexPlaces(corpus: seq<Doc>) returns (byPlace: map<(string, int), Doc>)
    ensures PlacesOf(byPlace, corpus)
  {
    byPlace := map[];
    for i := 0 to |corpus|
      invariant PlacesOf(byPlace, corpus[..i])
    {
      var doc := corpus[i];
      assert Front(corpus[..i + 1]) == corpus[..i];
      if IsRetrievalChunk(doc) && doc.source != "" && doc.chunk.Some? {
        byPlace := byPlace[(doc.source, doc.chunk.value) := doc];
      }
    }
    assert corpus[..|corpus|] == corpus;
  }

  method IndexSections(corpus: seq<Doc>) returns (bySection: map<(string, string), seq<Doc>>)
    ensures SectionsOf(bySection, corpus)
  {
    bySection := map[];
    for i := 0 to |corpus|
      invariant SectionsOf(bySection, corpus[..i])
    {
      var doc, before := corpus[i], bySection;
      assert Front(corpus[..i + 1]) == corpus[..i];
      var key := SectionKey(doc);
      if IsRetrievalChunk(doc) && key.Some? {
        bySection := bySection[key.value := (if key.value in bySection then bySection[key.value] else []) + [doc]];
      }
      forall k ensures InSection(corpus[..i + 1], k) == if k in bySection then bySection[k] else [] {
        assert InSection(corpus[..i], k) == if k in before then before[k] else [];
      }
    }
    assert corpus[..|corpus|] == corpus;
  }

  method ResolveContext(parents: map<string, Doc>, doc: Doc, ghost corpus: seq<Doc>) returns (context: Doc)
    requires ParentsOf(parents, corpus)
    ensures context == ContextDoc(corpus, doc)
  {
    if doc.role == "child" && doc.parentId != "" && doc.parentId in parents {
      return parents[doc.parentId];
    }
    return doc;
  }

  lemma SelectionSnoc(items: seq<Item>, item: Item)
    ensures Selection(items + [item]) == Considered(Selection(items), item)
  {
    assert Front(items + [item]) == items;
  }

  /** Offering at most one more item after others. */
  lemma OfferNext(seen: seq<Item>, before: seq<Item>, more: seq<Item>)
    requires |more| <= 1
    ensures Selection(seen + (before + more)) ==
            if more == [] then Selection(seen + before) else Considered(Selection(seen + before), more[0])
  {
    if more == [] {
      assert before + more == before;
    } else {
      SelectionSnoc(seen + before, more[0]);
      assert seen + (before + more) == seen + before + [more[0]];
    }
  }

  /** Offer the chunks of the hit's section. */
  method ConsiderSection(selected: seq<Item>, ghost seen: seq<Item>, hit: Doc, rank: nat, section: seq<Doc>,
                         parents: map<string, Doc>, ghost corpus: seq<Doc>)
    returns (now: seq<Item>)
    requires selected == Selection(seen) && ParentsOf(parents, corpus)
    requires SectionKey(hit).Some? && hit.chunk.Some?
    requires forall i :: 0 <= i < |section| ==> IsRetrievalChunk(section[i]) && SectionKey(section[i]) == SectionKey(hit)
    ensures now == Selection(seen + SectionItems(corpus, hit, rank, section))
  {
    now := selected;
    assert seen + [] == seen;
    for i := 0 to |section|
      invariant now == Selection(seen + SectionItems(corpus, hit, rank, section[..i]))
    {
      var doc := section[i];
      assert Front(section[..i + 1]) == section[..i];
      OfferNext(seen, SectionItems(corpus, hit, rank, section[..i]), SectionItem(corpus, hit, rank, doc));
      if doc.id != hit.id {
        var resolved := ResolveContext(parents, doc, corpus);
        var distance := if doc.chunk.Some? then Distance(doc.chunk.value, hit.chunk.value) else 0;
        now := Considered(now, Item(resolved, rank, 1, distance));
      }
    }
    assert section[..|section|] == section;
  }

  /** Offer the chunks next to the hit. */
  method ConsiderNeighbors(selected: seq<Item>, ghost seen: seq<Item>, hit: Doc, rank: nat, window: nat,
                           byPlace: map<(string, int), Doc>, parents: map<string, Doc>, ghost corpus: seq<Doc>)
    returns (now: seq<Item>)
    requires selected == Selection(seen) && ParentsOf(parents, corpus) && PlacesOf(byPlace, corpus)
    requires hit.source != "" && hit.chunk.Some? && hit.chunk.value >= 0
    ensures now == Selection(seen + NeighborItems(corpus, hit, rank, 0 - window, window + 1))
  {
    now := selected;
    assert seen + [] == seen;
    for offset := 0 - window to window + 1
      invariant now == Selection(seen + NeighborItems(corpus, hit, rank, 0 - window, offset))
    {
      OfferNext(seen, NeighborItems(corpus, hit, rank, 0 - window, offset), NeighborItem(corpus, hit, rank, offset));
      if offset != 0 && (hit.source, hit.chunk.value + offset) in byPlace {
        var resolved := ResolveContext(parents, byPlace[(hit.source, hit.chunk.value + offset)], corpus);
        now := Considered(now, Item(resolved, rank, 2, Distance(offset, 0)));
      }
    }
  }

  method ExpandHitDocumentsScored(hits: seq<Doc>, corpus: seq<Doc>, neighbor: int) returns (items: seq<Item>)
    ensures items == Expanded(corpus, hits, neighbor)
  {
    if hits == [] {
      return [];
    }
    var window := if neighbor < 0 then 0 else neighbor;
    var parents := ParentLookup(corpus);
    var byPlace := IndexPlaces(corpus);
    var bySection := IndexSections(corpus);
    var selected := [];
    for rank := 0 to |hits|
      invariant selected == Selection(Candidates(corpus, hits[..rank], window))
    {
      var hit := hits[rank];
      assert Front(hits[..rank + 1]) == hits[..rank];
      selected := ConsiderHit(selected, Candidates(corpus, hits[..rank], window), hit, rank, window,
                              parents, byPlace, bySection, corpus);
    }
    assert hits[..|hits|] == hits;
    items := Ordered(selected);
  }

  /** Everything one hit brings in. */
  method ConsiderHit(selected: seq<Item>, ghost seen: seq<Item>, hit: Doc, rank: nat, window: nat,
                     parents: map<string, Doc>, byPlace: map<(string, int), Doc>,
                     bySection: map<(string, string), seq<Doc>>, ghost corpus: seq<Doc>)
    returns (now: seq<Item>)
    requires selected == Selection(seen) && ParentsOf(parents, corpus)
    requires PlacesOf(byPlace, corpus) && SectionsOf(bySection, corpus)
    ensures now == Selection(seen + HitItems(corpus, hit, rank, window))
  {
    var context := ResolveContext(parents, hit, corpus);
    SelectionSnoc(seen, Item(context, rank, 0, 0));
    now := Considered(selected, Item(context, rank, 0, 0));
    ghost var own := seen + [HitItem(corpus, hit, rank)];
    now := ConsiderOwnSection(now, own, hit, rank, bySection, parents, corpus);
    ghost var around := own + SectionItems(corpus, hit, rank, corpus);
    now := ConsiderPlaces(now, around, hit, rank, window, byPlace, parents, corpus);
    HitItemsInParts(seen, corpus, hit, rank, window);
  }

  lemma HitItemsInParts(seen: seq<Item>, corpus: seq<Doc>, hit: Doc, rank: nat, window: nat)
    ensures seen + [HitItem(corpus, hit, rank)] + SectionItems(corpus, hit, rank, corpus) +
            NeighborItems(corpus, hit, rank, 0 - window, window + 1) == seen + HitItems(corpus, hit, rank, window)
  {}

  method ConsiderPlaces(selected: seq<Item>, ghost seen: seq<Item>, hit: Doc, rank: nat, window: nat,
                        byPlace: map<(string, int), Doc>, parents: map<string, Doc>, ghost corpus: seq<Doc>)
    returns (now: seq<Item>)
    requires selected == Selection(seen) && ParentsOf(parents, corpus) && PlacesOf(byPlace, corpus)
    ensures now == Selection(seen + NeighborItems(corpus, hit, rank, 0 - window, window + 1))
  {
    if hit.source != "" && hit.chunk.Some? && hit.chunk.value >= 0 {
      now := ConsiderNeighbors(selected, seen, hit, rank, window, byPlace, parents, corpus);
    } else {
      NoNeighborItems(corpus, hit, rank, 0 - window, window + 1);
      assert seen + [] == seen;
      now := selected;
    }
  }

  method ConsiderOwnSection(selected: seq<Item>, ghost seen: seq<Item>, hit: Doc, rank: nat,
                            bySection: map<(string, string), seq<Doc>>, parents: map<string, Doc>, ghost corpus: seq<Doc>)
    returns (now: seq<Item>)
    requires selected == Selection(seen) && ParentsOf(parents, corpus) && SectionsOf(bySection, corpus)
    ensures now == Selection(seen + SectionItems(corpus, hit, rank, corpus))
  {
    now := selected;
    var key := SectionKey(hit);
    if key.Some? && hit.chunk.Some? {
      var section := if key.value in bySection then bySection[key.value] else [];
      assert section == InSection(corpus, key.value);
      InSectionMembers(corpus, key.value);
      SectionItemsOfSection(corpus, hit, rank, corpus);
      now := ConsiderSection(now, seen, hit, rank, section, parents, corpus);
    } else {
      NoSectionItems(corpus, hit, rank, corpus);
      assert seen + [] == seen;
    }
  }

  lemma {:induction false} InSectionMembers(docs: seq<Doc>, key: (string, string))
    ensures forall i :: 0 <= i < |InSection(docs, key)| ==>
              IsRetrievalChunk(InSection(docs, key)[i]) && SectionKey(InSection(docs, key)[i]) == Some(key)
  {
    if docs != [] { InSectionMembers(Front(docs), key); }
  }

  predicate IsBestHit(item: Item) {
    item.tier == 0 && item.rank == 0
  }

  /**
   Cut the items to a budget. The scan starts with the best hit, so the source's branch that puts a dropped
   best hit back is never taken.
   */
  method TrimRagContextByBudget(countTokens: string -> nat, items: seq<Item>, budget: int)
    returns (docs: seq<Doc>, tokens: int, trimmed: int, exceeded: bool)
    ensures docs == SortedDocs(Kept(countTokens, items, budget))
    ensures tokens == Sum(Costs(countTokens, Kept(countTokens, items, budget)))
    ensures trimmed == |items| - |Kept(countTokens, items, budget)|
    ensures exceeded <==> budget > 0 && tokens > budget && exists item :: item in items && IsBestHit(item)
  {
    var ordered := Ordered(items);
    OrderedKeepsItems(items);
    if budget <= 0 || items == [] {
      tokens := TotalCost(countTokens, ordered);
      return SortedDocs(ordered), tokens, 0, false;
    }
    var kept;
    kept, tokens := ScanToBudget(countTokens, ordered, budget);
    var top := FirstBestHit(ordered);
    exceeded := false;
    if top.Some? && top.value !in kept {
      assert false;
    } else if top.Some? && tokens > budget {
      exceeded := true;
    }
    trimmed := |ordered| - |kept|;
    docs := SortedDocs(kept);
  }

  /** Take the first item, then everything that still fits. */
  method ScanToBudget(countTokens: string -> nat, ordered: seq<Item>, budget: int) returns (kept: seq<Item>, tokens: int)
    requires ordered != []
    ensures kept == Pick(ordered, Taken(Costs(countTokens, ordered), budget), true)
    ensures tokens == Sum(Costs(countTokens, kept))
    ensures kept != [] && kept[0] == ordered[0]
  {
    ghost var costs := Costs(countTokens, ordered);
    kept, tokens := [], 0;
    for i := 0 to |ordered|
      invariant kept == Pick(ordered[..i], Taken(costs[..i], budget), true)
      invariant tokens == Spent(costs[..i], budget)
      invariant kept == [] <==> i == 0
      invariant i > 0 ==> kept[0] == ordered[0]
    {
      ScanStep(ordered, costs, budget, i);
      var cost := countTokens(Chunk(ordered[i].doc));
      if !(kept != [] && tokens + cost > budget) {
        kept := kept + [ordered[i]];
        tokens := tokens + cost;
      }
    }
    assert ordered[..|ordered|] == ordered && costs[..|ordered|] == costs;
    CostsOfPicked(countTokens, ordered, Taken(costs, budget));
  }

  /** What the scan has taken and spent after one more item. */
  lemma ScanStep(ordered: seq<Item>, costs: seq<int>, budget: int, i: nat)
    requires |costs| == |ordered| && i < |ordered|
    ensures var taken := i == 0 || Spent(costs[..i], budget) + costs[i] <= budget;
            && Spent(costs[..i + 1], budget) == Spent(costs[..i], budget) + (if taken then costs[i] else 0)
            && Pick(ordered[..i + 1], Taken(costs[..i + 1], budget), true) ==
               (if taken then Pick(ordered[..i], Taken(costs[..i], budget), true) + [ordered[i]]
                else Pick(ordered[..i], Taken(costs[..i], budget), true))
  {
    assert Front(costs[..i + 1]) == costs[..i] && Front(ordered[..i + 1]) == ordered[..i];
    SpentSnoc(costs[..i + 1], budget);
    assert Front(Taken(costs[..i + 1], budget)) == Taken(costs[..i], budget);
    var picked := Pick(ordered[..i], Taken(costs[..i], budget), true);
    assert picked + [] == picked;
  }

  method TotalCost(countTokens: string -> nat, items: seq<Item>) returns (total: int)
    ensures total == Sum(Costs(countTokens, items))
  {
    total := 0;
    for i := 0 to |items|
      invariant total == Sum(Costs(countTokens, items[..i]))
    {
      assert Front(Costs(countTokens, items[..i + 1])) == Costs(countTokens, items[..i]);
      total := total + countTokens(Chunk(items[i].doc));
    }
    assert items[..|items|] == items;
  }

  lemma BestHitComesFirst(a: Item, b: Item)
    requires IsBestHit(a) && !IsBestHit(b)
    ensures Less(Priority(a), Priority(b))
  {
    assert Priority(a)[1..] == [a.tier, a.distance] && Priority(b)[1..] == [b.tier, b.distance];
  }

  /** In priority order a best hit can only stand at the front. */
  method FirstBestHit(ordered: seq<Item>) returns (top: Option<Item>)
    requires InOrder(ordered)
    ensures top.Some? <==> exists item :: item in ordered && IsBestHit(item)
    ensures top.Some? ==> ordered != [] && top.value == ordered[0]
  {
    for i := 0 to |ordered|
      invariant forall j :: 0 <= j < i ==> !IsBestHit(ordered[j])
    {
      if IsBestHit(ordered[i]) {
        if i > 0 {
          BestHitComesFirst(ordered[i], ordered[0]);
        }
        return Some(ordered[i]);
      }
    }
    return None;
  }
}
