/** The structured rolling summary: constraints and conclusions of a conversation, merged turn batch by turn batch. */
module SessionSummary {
  import opened Sequences
  import opened Text
  import opened FactLists

  datatype Summary = Summary(
    orders: seq<string>, courses: seq<string>, intent: string, confirmed: seq<string>, pending: seq<string>)

  const NOTHING := Summary([], [], "", [], [])

  const ORDERS_CAP := 3
  const COURSES_CAP := 3
  const CONFIRMED_CAP := 6
  const PENDING_CAP := 4

  function Merged(a: Summary, b: Summary): Summary {
    Summary(
      Newest(WriteAll(Plainly, a.orders, Texts(b.orders)), ORDERS_CAP),
      Newest(WriteAll(Plainly, a.courses, Texts(b.courses)), COURSES_CAP),
      Strip(if b.intent != "" then b.intent else a.intent),
      Newest(WriteAll(Exclusively, [], Texts(a.confirmed + b.confirmed)), CONFIRMED_CAP),
      Newest(WriteAll(Plainly, a.pending, Texts(b.pending)), PENDING_CAP))
  }

  method MergeSummaries(a: Summary, b: Summary) returns (m: Summary)
    ensures m == Merged(a, b)
  {
    var orders := PrependUnique(a.orders, b.orders, ORDERS_CAP);
    var courses := PrependUnique(a.courses, b.courses, COURSES_CAP);
    var confirmed := ApplyExclusiveSequence(a.confirmed + b.confirmed, Some(CONFIRMED_CAP));
    var pending := PrependUnique(a.pending, b.pending, PENDING_CAP);
    m := Summary(orders, courses, Strip(if b.intent != "" then b.intent else a.intent), confirmed, pending);
  }

  // ----- Well-formed summaries

  /** Every fact is a stripped, non-empty text. */
  ghost predicate Proper(xs: seq<string>) {
    forall i :: 0 <= i < |xs| ==> ProperFact(xs[i])
  }

  ghost predicate ProperFact(x: string) {
    x != "" && Strip(x) == x
  }

  ghost predicate Sound(s: Summary) {
    && Proper(s.orders) && WellFormed(Plainly, s.orders)
    && Proper(s.courses) && WellFormed(Plainly, s.courses)
    && Proper(s.confirmed) && WellFormed(Exclusively, s.confirmed)
    && Proper(s.pending) && WellFormed(Plainly, s.pending)
    && Strip(s.intent) == s.intent
  }

  ghost predicate WithinCaps(s: Summary) {
    && |s.orders| <= ORDERS_CAP && |s.courses| <= COURSES_CAP
    && |s.confirmed| <= CONFIRMED_CAP && |s.pending| <= PENDING_CAP
  }

  lemma ProperFront(xs: seq<string>)
    requires xs != [] && Proper(xs)
    ensures Proper(Front(xs)) && ProperFact(Last(xs))
  {
    forall i | 0 <= i < |xs| - 1 ensures ProperFact(Front(xs)[i]) {
      assert ProperFact(xs[i]);
    }
  }

  lemma TextsSnoc(items: seq<string>, text: string)
    requires ProperFact(text)
    ensures Texts(items + [text]) == Texts(items) + [text]
  {
    assert Front(items + [text]) == items;
  }

  lemma {:induction false} ProperTexts(xs: seq<string>)
    requires Proper(xs)
    ensures Texts(xs) == xs
  {
    if xs != [] {
      ProperFront(xs);
      ProperTexts(Front(xs));
      TextsSnoc(Front(xs), Last(xs));
      assert xs == Front(xs) + [Last(xs)];
    }
  }

  lemma ProperAppend(a: seq<string>, b: seq<string>)
    requires Proper(a) && Proper(b)
    ensures Proper(a + b)
  {
    forall i | 0 <= i < |a + b| ensures ProperFact((a + b)[i]) {
      if i < |a| {
        assert ProperFact(a[i]);
      } else {
        assert ProperFact(b[i - |a|]);
      }
    }
  }

  lemma ProperMerge(key: Keying, cap: nat, a: seq<string>, b: seq<string>)
    requires Proper(a) && Proper(b) && WellFormed(key, a) && WellFormed(key, b)
    ensures Proper(Merge(key, cap, a, b)) && WellFormed(key, Merge(key, cap, a, b))
    ensures Texts(b) == b
    ensures |Merge(key, cap, a, b)| <= cap
  {
    ProperTexts(b);
    MergeKeepsWellFormed(key, cap, a, b);
    WriteAllIs(key, a, b);
    ProperMinus(key, a, Slots(key, b));
    ProperAppend(Minus(key, a, Slots(key, b)), b);
    ProperNewest(WriteAll(key, a, b), cap);
  }

  lemma ProperMinus(key: Keying, xs: seq<string>, gone: set<Slot>)
    requires Proper(xs)
    ensures Proper(Minus(key, xs, gone))
  {
    MinusMembers(key, xs, gone);
    forall i | 0 <= i < |Minus(key, xs, gone)| ensures ProperFact(Minus(key, xs, gone)[i]) {
      assert Minus(key, xs, gone)[i] in Minus(key, xs, gone);
    }
  }

  lemma ProperNewest(xs: seq<string>, cap: nat)
    requires Proper(xs)
    ensures Proper(Newest(xs, cap))
  {}

  /** The confirmed list is rebuilt from both operands; on well-formed operands that is the same bounded update. */
  lemma ConfirmedIsMerge(a: seq<string>, b: seq<string>)
    requires Proper(a) && Proper(b) && WellFormed(Exclusively, a) && WellFormed(Exclusively, b)
    ensures Newest(WriteAll(Exclusively, [], Texts(a + b)), CONFIRMED_CAP) == Merge(Exclusively, CONFIRMED_CAP, a, b)
  {
    ProperAppend(a, b);
    ProperTexts(a + b);
    WriteAllAppend(Exclusively, [], a, b);
    WriteAllIs(Exclusively, [], a);
    assert WriteAll(Exclusively, [], a) == a;
  }

  lemma {:induction false} WriteAllAppend(key: Keying, xs: seq<string>, a: seq<string>, b: seq<string>)
    ensures WriteAll(key, xs, a + b) == WriteAll(key, WriteAll(key, xs, a), b)
  {
    if b == [] {
      assert a + b == a;
    } else {
      WriteAllAppend(key, xs, a, Front(b));
      assert Front(a + b) == a + Front(b);
    }
  }

  /** Merging well-formed summaries field by field. */
  lemma MergedFields(a: Summary, b: Summary)
    requires Sound(a) && Sound(b)
    ensures Merged(a, b) == Summary(
              Merge(Plainly, ORDERS_CAP, a.orders, b.orders),
              Merge(Plainly, COURSES_CAP, a.courses, b.courses),
              if b.intent != "" then b.intent else a.intent,
              Merge(Exclusively, CONFIRMED_CAP, a.confirmed, b.confirmed),
              Merge(Plainly, PENDING_CAP, a.pending, b.pending))
    ensures Sound(Merged(a, b)) && WithinCaps(Merged(a, b))
  {
    ProperMerge(Plainly, ORDERS_CAP, a.orders, b.orders);
    ProperMerge(Plainly, COURSES_CAP, a.courses, b.courses);
    ProperMerge(Exclusively, CONFIRMED_CAP, a.confirmed, b.confirmed);
    ProperMerge(Plainly, PENDING_CAP, a.pending, b.pending);
    ConfirmedIsMerge(a.confirmed, b.confirmed);
  }

  // ----- The algebra

  /** Merging is associative on well-formed summaries, despite caps, deduplication and exclusive labels. */
  lemma MergeIsAssociative(a: Summary, b: Summary, c: Summary)
    requires Sound(a) && Sound(b) && Sound(c)
    ensures Merged(Merged(a, b), c) == Merged(a, Merged(b, c))
  {
    MergedFields(a, b);
    MergedFields(b, c);
    MergedFields(Merged(a, b), c);
    MergedFields(a, Merged(b, c));
    MergeAssociative(Plainly, ORDERS_CAP, a.orders, b.orders, c.orders);
    MergeAssociative(Plainly, COURSES_CAP, a.courses, b.courses, c.courses);
    MergeAssociative(Exclusively, CONFIRMED_CAP, a.confirmed, b.confirmed, c.confirmed);
    MergeAssociative(Plainly, PENDING_CAP, a.pending, b.pending, c.pending);
  }

  lemma NothingIsIdentity(a: Summary)
    requires Sound(a) && WithinCaps(a)
    ensures Merged(a, NOTHING) == a && Merged(NOTHING, a) == a
  {
    assert Sound(NOTHING) by { StripGives(""); }
    MergedFields(a, NOTHING);
    MergedFields(NOTHING, a);
    MergeIdentity(Plainly, ORDERS_CAP, a.orders);
    MergeIdentity(Plainly, COURSES_CAP, a.courses);
    MergeIdentity(Exclusively, CONFIRMED_CAP, a.confirmed);
    MergeIdentity(Plainly, PENDING_CAP, a.pending);
  }

  /** Folding the facts of a batch of messages, oldest first. */
  function FoldFacts(facts: seq<Summary>): Summary {
    if facts == [] then NOTHING else Merged(FoldFacts(Front(facts)), Last(facts))
  }

  ghost predicate AllSound(facts: seq<Summary>) {
    forall i :: 0 <= i < |facts| ==> Sound(facts[i])
  }

  lemma {:induction false} FoldIsSound(facts: seq<Summary>)
    requires AllSound(facts)
    ensures Sound(FoldFacts(facts)) && WithinCaps(FoldFacts(facts))
  {
    if facts == [] {
      StripGives("");
    } else {
      assert AllSound(Front(facts));
      FoldIsSound(Front(facts));
      MergedFields(FoldFacts(Front(facts)), Last(facts));
    }
  }

  /** Two batches folded one after the other into a summary are the same as one batch folded at once. */
  lemma {:induction false} BatchByBatchIsAtOnce(summary: Summary, first: seq<Summary>, second: seq<Summary>)
    requires Sound(summary) && WithinCaps(summary) && AllSound(first) && AllSound(second)
    ensures Merged(Merged(summary, FoldFacts(first)), FoldFacts(second)) == Merged(summary, FoldFacts(first + second))
  {
    FoldIsSound(first);
    if second == [] {
      assert first + second == first;
      MergedFields(summary, FoldFacts(first));
      NothingIsIdentity(Merged(summary, FoldFacts(first)));
    } else {
      assert AllSound(Front(second)) && Front(first + second) == first + Front(second);
      BatchByBatchIsAtOnce(summary, first, Front(second));
      FoldIsSound(Front(second));
      FoldIsSound(first + Front(second));
      MergedFields(summary, FoldFacts(first));
      MergeIsAssociative(Merged(summary, FoldFacts(first)), FoldFacts(Front(second)), Last(second));
      MergeIsAssociative(summary, FoldFacts(first + Front(second)), Last(second));
    }
  }

  /** A label of the newer list is the same as this one or excludes it. */
  predicate Replaced(x: string, newer: seq<string>) {
    exists y :: y in newer && (x == y || x in RivalsOf(y))
  }

  /** The older labels that no newer one replaces, in order. */
  function Unrivalled(older: seq<string>, newer: seq<string>): seq<string> {
    if older == [] then []
    else Unrivalled(Front(older), newer) + (if Replaced(Last(older), newer) then [] else [Last(older)])
  }

  lemma {:induction false} UnrivalledIsMinus(older: seq<string>, newer: seq<string>)
    ensures Unrivalled(older, newer) == Minus(Exclusively, older, Slots(Exclusively, newer))
    ensures forall x :: x in Unrivalled(older, newer) <==> x in older && !Replaced(x, newer)
  {
    if older != [] {
      UnrivalledIsMinus(Front(older), newer);
      ReplacedIffSlotTaken(Last(older), newer);
    }
  }

  lemma ReplacedIffSlotTaken(x: string, newer: seq<string>)
    ensures SlotOf(Exclusively, x) in Slots(Exclusively, newer) <==> Replaced(x, newer)
  {
    forall y | y in newer ensures SlotOf(Exclusively, x) == SlotOf(Exclusively, y) <==> x == y || x in RivalsOf(y) {
      RivalsShareASlot(x, y);
    }
  }

  /**
   Which confirmed labels a merge keeps, exactly: of all newer labels and the older ones that no newer label equals
   or excludes, the last six in that order.
   */
  lemma LaterLabelWins(a: Summary, b: Summary, x: string)
    requires Sound(a) && Sound(b)
    ensures var all := Unrivalled(a.confirmed, b.confirmed) + b.confirmed;
            && Merged(a, b).confirmed == Newest(all, CONFIRMED_CAP)
            && (x in all <==> x in b.confirmed || (x in a.confirmed && !Replaced(x, b.confirmed)))
            && (x in Merged(a, b).confirmed <==>
                  exists i :: 0 <= i < |all| && |all| - i <= CONFIRMED_CAP && all[i] == x)
  {
    MergedFields(a, b);
    WriteAllIs(Exclusively, a.confirmed, b.confirmed);
    UnrivalledIsMinus(a.confirmed, b.confirmed);
    NewestHolds(Unrivalled(a.confirmed, b.confirmed) + b.confirmed, CONFIRMED_CAP, x);
  }

  lemma NewestHolds(xs: seq<string>, cap: nat, x: string)
    ensures x in Newest(xs, cap) <==> exists i :: 0 <= i < |xs| && |xs| - i <= cap && xs[i] == x
  {
    var cut := |xs| - |Newest(xs, cap)|;
    if i :| 0 <= i < |xs| && |xs| - i <= cap && xs[i] == x {
      assert Newest(xs, cap)[i - cut] == x;
    }
    if x in Newest(xs, cap) {
      var k :| 0 <= k < |Newest(xs, cap)| && Newest(xs, cap)[k] == x;
      assert xs[cut + k] == x;
    }
  }

  // ----- Settling pending items

  const PENDING_ORDER_NO := "待提供订单号"
  const PENDING_COURSE := "待确认课程"

  function Dropping(xs: seq<string>, drop: bool, text: string): seq<string> {
    if drop then Minus(Plainly, xs, {SlotOf(Plainly, text)}) else xs
  }

  /** Known orders and courses, from the summary or the session slots, settle what was pending about them. */
  function Resolved(s: Summary, slotOrder: string, slotCourse: string): Summary {
    var hasOrder, hasCourse := s.orders != [] || Strip(slotOrder) != "", s.courses != [] || Strip(slotCourse) != "";
    s.(confirmed := Newest(WriteAll(Exclusively, [], Texts(s.confirmed)), CONFIRMED_CAP),
       pending := Dropping(Dropping(s.pending, hasOrder, PENDING_ORDER_NO), hasCourse, PENDING_COURSE))
  }

  /** Settling a summary of the folding pipeline only ever removes pending items, and doing it twice changes nothing. */
  lemma ResolveSettles(s: Summary, slotOrder: string, slotCourse: string)
    requires Sound(s) && WithinCaps(s)
    ensures var r := Resolved(s, slotOrder, slotCourse);
            && Sound(r) && WithinCaps(r) && r == s.(pending := r.pending)
            && Resolved(r, slotOrder, slotCourse) == r
            && (s.orders != [] || Strip(slotOrder) != "" ==> PENDING_ORDER_NO !in r.pending)
            && (s.courses != [] || Strip(slotCourse) != "" ==> PENDING_COURSE !in r.pending)
            && (forall x :: x in s.pending && x != PENDING_ORDER_NO && x != PENDING_COURSE ==> x in r.pending)
  {
    var hasOrder, hasCourse := s.orders != [] || Strip(slotOrder) != "", s.courses != [] || Strip(slotCourse) != "";
    ConfirmedIsSettled(s.confirmed);
    var once := Dropping(s.pending, hasOrder, PENDING_ORDER_NO);
    DroppingFacts(s.pending, hasOrder, PENDING_ORDER_NO);
    DroppingFacts(once, hasCourse, PENDING_COURSE);
    var pending := Dropping(once, hasCourse, PENDING_COURSE);
    DroppingNothing(pending, hasOrder, PENDING_ORDER_NO);
    DroppingNothing(pending, hasCourse, PENDING_COURSE);
  }

  lemma ConfirmedIsSettled(confirmed: seq<string>)
    requires Proper(confirmed) && WellFormed(Exclusively, confirmed) && |confirmed| <= CONFIRMED_CAP
    ensures Newest(WriteAll(Exclusively, [], Texts(confirmed)), CONFIRMED_CAP) == confirmed
  {
    ProperTexts(confirmed);
    WriteAllIs(Exclusively, [], confirmed);
  }

  lemma DroppingFacts(xs: seq<string>, drop: bool, text: string)
    requires Proper(xs) && WellFormed(Plainly, xs)
    ensures var ys := Dropping(xs, drop, text);
            && Proper(ys) && WellFormed(Plainly, ys) && |ys| <= |xs|
            && (forall x :: x in ys <==> x in xs && !(drop && x == text))
  {
    MinusFacts(Plainly, xs, {SlotOf(Plainly, text)});
    var ys := Dropping(xs, drop, text);
    forall i | 0 <= i < |ys| ensures ProperFact(ys[i]) {
      assert ys[i] in ys;
      assert ys[i] in xs;
    }
  }

  lemma DroppingNothing(xs: seq<string>, drop: bool, text: string)
    requires drop ==> text !in xs
    ensures Dropping(xs, drop, text) == xs
  {
    if drop {
      MinusNone(Plainly, xs, {SlotOf(Plainly, text)});
    }
  }
}
