/**
 Folding with settling: the source settles pending items after every batch, not only at the end. This module says
 exactly when that makes a difference.
 */
module SettledFolding {
  import opened Sequences
  import opened Text
  import opened FactLists
  import opened SessionSummary

  /** The slots of the pending items that the summary or the session settles. */
  function Settled(s: Summary, slotOrder: string, slotCourse: string): set<Slot> {
    (if s.orders != [] || Strip(slotOrder) != "" then {SlotOf(Plainly, PENDING_ORDER_NO)} else {}) +
    (if s.courses != [] || Strip(slotCourse) != "" then {SlotOf(Plainly, PENDING_COURSE)} else {})
  }

  lemma ResolvedPending(s: Summary, slotOrder: string, slotCourse: string)
    ensures Resolved(s, slotOrder, slotCourse).pending == Minus(Plainly, s.pending, Settled(s, slotOrder, slotCourse))
  {
    var order, course := {SlotOf(Plainly, PENDING_ORDER_NO)}, {SlotOf(Plainly, PENDING_COURSE)};
    MinusMinus(Plainly, s.pending, order, course);
    MinusNone(Plainly, s.pending, {});
    var none: set<Slot> := {};
    assert none + course == course && order + none == order && none + none == none;
  }

  // ----- Two capped lists, one of them with settled items taken out first

  /** The pending items left after a merge of `older` and `newer` under the cap, then without those in `gone`. */
  function Left(older: seq<string>, newer: seq<string>, cap: nat, gone: set<Slot>): seq<string> {
    Minus(Plainly, Newest(older + newer, cap), gone)
  }

  /**
   The settled items in `early` take no place that this older item needs: if it survives settling and the cap cuts it
   while they are still there, the cap also cuts it when they are not.
   */
  predicate Unharmed(older: seq<string>, newer: seq<string>, cap: nat, early: set<Slot>, gone: set<Slot>, i: nat)
    requires i < |older|
  {
    SlotOf(Plainly, older[i]) !in gone && |older| - i + |newer| > cap ==>
      |Minus(Plainly, older[i + 1..], early)| + 1 + |newer| > cap
  }

  ghost predicate NoPlaceTaken(older: seq<string>, newer: seq<string>, cap: nat, early: set<Slot>, gone: set<Slot>) {
    forall i :: 0 <= i < |older| ==> Unharmed(older, newer, cap, early, gone, i)
  }

  lemma NewestTail(x: string, xs: seq<string>, cap: nat)
    ensures |xs| >= cap ==> Newest([x] + xs, cap) == Newest(xs, cap)
    ensures |xs| < cap ==> Newest([x] + xs, cap) == [x] + xs && Newest(xs, cap) == xs
  {
    if |xs| >= cap {
      assert ([x] + xs)[|xs| + 1 - cap..] == xs[|xs| - cap..];
    }
  }

  lemma MinusCons(x: string, xs: seq<string>, gone: set<Slot>)
    ensures Minus(Plainly, [x] + xs, gone) ==
            (if SlotOf(Plainly, x) in gone then [] else [x]) + Minus(Plainly, xs, gone)
  {
    MinusAppend(Plainly, [x], xs, gone);
    MinusOnly(x, gone);
  }

  lemma MinusOnly(x: string, gone: set<Slot>)
    ensures Minus(Plainly, [x], gone) == if SlotOf(Plainly, x) in gone then [] else [x]
  {
    MinusSnoc(Plainly, [], x, gone);
    assert [] + [x] == [x];
  }

  lemma UnharmedShift(x: string, rest: seq<string>, newer: seq<string>, cap: nat, early: set<Slot>, gone: set<Slot>, i: nat)
    requires i < |rest|
    ensures Unharmed([x] + rest, newer, cap, early, gone, i + 1) == Unharmed(rest, newer, cap, early, gone, i)
  {
    assert ([x] + rest)[i + 1 + 1..] == rest[i + 1..];
  }

  /** The condition, one item at a time. */
  lemma NoPlaceTakenCons(x: string, rest: seq<string>, newer: seq<string>, cap: nat, early: set<Slot>, gone: set<Slot>)
    ensures NoPlaceTaken([x] + rest, newer, cap, early, gone) <==>
              NoPlaceTaken(rest, newer, cap, early, gone) && Unharmed([x] + rest, newer, cap, early, gone, 0)
  {
    var older := [x] + rest;
    forall i | 0 <= i < |rest|
      ensures Unharmed(older, newer, cap, early, gone, i + 1) == Unharmed(rest, newer, cap, early, gone, i)
    {
      UnharmedShift(x, rest, newer, cap, early, gone, i);
    }
    if NoPlaceTaken(rest, newer, cap, early, gone) {
      forall i | 1 <= i < |older| ensures Unharmed(older, newer, cap, early, gone, i) {
        assert Unharmed(rest, newer, cap, early, gone, i - 1);
        assert i == i - 1 + 1;
      }
    }
    if NoPlaceTaken(older, newer, cap, early, gone) {
      forall i | 0 <= i < |rest| ensures Unharmed(rest, newer, cap, early, gone, i) {
        assert Unharmed(older, newer, cap, early, gone, i + 1);
      }
    }
  }

  /** Taking the `early` items out before the merge, or leaving them in until the end. */
  lemma {:induction false} EarlySettlingIff(older: seq<string>, newer: seq<string>, cap: nat, early: set<Slot>, gone: set<Slot>)
    requires early <= gone
    ensures Left(Minus(Plainly, older, early), newer, cap, gone) == Left(older, newer, cap, gone) <==>
              NoPlaceTaken(older, newer, cap, early, gone)
    ensures |Left(Minus(Plainly, older, early), newer, cap, gone)| >= |Left(older, newer, cap, gone)|
    decreases |older|
  {
    if older != [] {
      var x, rest := older[0], older[1..];
      assert older == [x] + rest;
      EarlySettlingIff(rest, newer, cap, early, gone);
      NoPlaceTakenCons(x, rest, newer, cap, early, gone);
      OneMoreOlder(x, rest, newer, cap, early, gone);
    }
  }

  lemma OneMoreOlder(x: string, rest: seq<string>, newer: seq<string>, cap: nat, early: set<Slot>, gone: set<Slot>)
    requires early <= gone
    requires var p, q := Left(Minus(Plainly, rest, early), newer, cap, gone), Left(rest, newer, cap, gone);
             (p == q <==> NoPlaceTaken(rest, newer, cap, early, gone)) && |p| >= |q|
    ensures var older := [x] + rest;
            var a, b := Left(Minus(Plainly, older, early), newer, cap, gone), Left(older, newer, cap, gone);
            && |a| >= |b|
            && (a == b <==>
                  NoPlaceTaken(rest, newer, cap, early, gone) && Unharmed(older, newer, cap, early, gone, 0))
  {
    var thin := Minus(Plainly, rest, early);
    SettledHead(x, rest, newer, cap, early, gone);
    LeftCons(x, rest, newer, cap, gone);
    MinusMembers(Plainly, rest, early);
    assert ([x] + rest)[1..] == rest;
    ConsCancels(x, Left(thin, newer, cap, gone), Left(rest, newer, cap, gone));
  }

  lemma SettledHead(x: string, rest: seq<string>, newer: seq<string>, cap: nat, early: set<Slot>, gone: set<Slot>)
    requires early <= gone
    ensures var thin := Minus(Plainly, rest, early);
            Left(Minus(Plainly, [x] + rest, early), newer, cap, gone) ==
            if |thin| + |newer| >= cap || SlotOf(Plainly, x) in gone then Left(thin, newer, cap, gone)
            else [x] + Left(thin, newer, cap, gone)
  {
    var thin := Minus(Plainly, rest, early);
    MinusCons(x, rest, early);
    LeftCons(x, thin, newer, cap, gone);
    assert [] + thin == thin;
  }

  lemma ConsCancels(x: string, a: seq<string>, b: seq<string>)
    ensures [x] + a == [x] + b ==> a == b
  {
    assert ([x] + a)[1..] == a && ([x] + b)[1..] == b;
  }

  /** One more older item: it is cut, or it stands in front of the rest unless it is gone. */
  lemma LeftCons(x: string, rest: seq<string>, newer: seq<string>, cap: nat, gone: set<Slot>)
    ensures Left([x] + rest, newer, cap, gone) ==
            if |rest| + |newer| >= cap || SlotOf(Plainly, x) in gone then Left(rest, newer, cap, gone)
            else [x] + Left(rest, newer, cap, gone)
  {
    assert [x] + rest + newer == [x] + (rest + newer);
    NewestTail(x, rest + newer, cap);
    MinusCons(x, rest + newer, gone);
    assert [] + Minus(Plainly, rest + newer, gone) == Minus(Plainly, rest + newer, gone);
  }

  // ----- Summaries

  /** What a merge leaves pending, before and after settling. */
  lemma MergedPending(m: Summary, b: Summary)
    requires Sound(m) && Sound(b)
    ensures Merged(m, b).pending == Newest(Minus(Plainly, m.pending, Slots(Plainly, b.pending)) + b.pending, PENDING_CAP)
  {
    MergedFields(m, b);
    WriteAllIs(Plainly, m.pending, b.pending);
  }

  /** Orders and courses, once known, stay known, so what was settled before a merge is settled after it. */
  lemma SettledStays(m: Summary, b: Summary, slotOrder: string, slotCourse: string)
    requires Sound(m) && Sound(b)
    ensures Settled(m, slotOrder, slotCourse) <= Settled(Merged(m, b), slotOrder, slotCourse)
  {
    MergedFields(m, b);
    if m.orders != [] {
      StillThere(m.orders, b.orders, ORDERS_CAP);
    }
    if m.courses != [] {
      StillThere(m.courses, b.courses, COURSES_CAP);
    }
  }

  lemma StillThere(xs: seq<string>, ys: seq<string>, cap: nat)
    requires WellFormed(Plainly, ys) && xs != [] && cap > 0
    ensures Merge(Plainly, cap, xs, ys) != []
  {
    WriteAllIs(Plainly, xs, ys);
    if ys == [] {
      MinusNone(Plainly, xs, Slots(Plainly, ys));
    }
  }

  /** The older pending items that the newer batch does not repeat. */
  function Older(m: Summary, b: Summary): seq<string> {
    Minus(Plainly, m.pending, Slots(Plainly, b.pending))
  }

  /**
   Settling between two batches changes nothing, exactly when no settled item takes a place under the cap of four
   that a surviving older item needs. Without settling in between, batch by batch always equals at once.
   */
  lemma SettlingBetweenBatchesIff(s: Summary, a: Summary, b: Summary, slotOrder: string, slotCourse: string)
    requires Sound(s) && Sound(a) && Sound(b)
    ensures var m := Merged(s, a);
            Resolved(Merged(Resolved(m, slotOrder, slotCourse), b), slotOrder, slotCourse) ==
            Resolved(Merged(s, Merged(a, b)), slotOrder, slotCourse)
            <==>
            NoPlaceTaken(Older(m, b), b.pending, PENDING_CAP, Settled(m, slotOrder, slotCourse),
                         Settled(Merged(m, b), slotOrder, slotCourse))
  {
    var m := Merged(s, a);
    MergeIsAssociative(s, a, b);
    MergedFields(s, a);
    SettlingBeforeMergeIff(m, b, slotOrder, slotCourse);
  }

  lemma SettlingBeforeMergeIff(m: Summary, b: Summary, slotOrder: string, slotCourse: string)
    requires Sound(m) && WithinCaps(m) && Sound(b)
    ensures Resolved(Merged(Resolved(m, slotOrder, slotCourse), b), slotOrder, slotCourse) ==
            Resolved(Merged(m, b), slotOrder, slotCourse)
            <==>
            NoPlaceTaken(Older(m, b), b.pending, PENDING_CAP, Settled(m, slotOrder, slotCourse),
                         Settled(Merged(m, b), slotOrder, slotCourse))
  {
    var early, gone := Settled(m, slotOrder, slotCourse), Settled(Merged(m, b), slotOrder, slotCourse);
    var r := Resolved(m, slotOrder, slotCourse);
    OnlyPendingDiffers(m, b, slotOrder, slotCourse);
    SettledStays(m, b, slotOrder, slotCourse);
    EarlySettlingIff(Older(m, b), b.pending, PENDING_CAP, early, gone);
    MergedPending(m, b);
    MergedPending(r, b);
    ResolvedPending(m, slotOrder, slotCourse);
    ResolvedPending(Merged(m, b), slotOrder, slotCourse);
    ResolvedPending(Merged(r, b), slotOrder, slotCourse);
    Commute(m.pending, early, Slots(Plainly, b.pending));
  }

  lemma Commute(xs: seq<string>, a: set<Slot>, b: set<Slot>)
    ensures Minus(Plainly, Minus(Plainly, xs, a), b) == Minus(Plainly, Minus(Plainly, xs, b), a)
  {
    MinusMinus(Plainly, xs, a, b);
    MinusMinus(Plainly, xs, b, a);
    assert a + b == b + a;
  }

  lemma MergeOfSameButPending(m: Summary, r: Summary, b: Summary)
    requires r == m.(pending := r.pending)
    ensures Merged(r, b) == Merged(m, b).(pending := Merged(r, b).pending)
  {}

  /** Everything but the pending items is the same either way. */
  lemma OnlyPendingDiffers(m: Summary, b: Summary, slotOrder: string, slotCourse: string)
    requires Sound(m) && WithinCaps(m) && Sound(b)
    ensures var r := Resolved(m, slotOrder, slotCourse);
            var x, y := Resolved(Merged(r, b), slotOrder, slotCourse), Resolved(Merged(m, b), slotOrder, slotCourse);
            && Sound(r) && x == y.(pending := x.pending)
            && Settled(Merged(r, b), slotOrder, slotCourse) == Settled(Merged(m, b), slotOrder, slotCourse)
  {
    var r := Resolved(m, slotOrder, slotCourse);
    ResolveSettles(m, slotOrder, slotCourse);
    MergeOfSameButPending(m, r, b);
    SoundAfterMerge(m, b);
    SoundAfterMerge(r, b);
    ResolveSettles(Merged(m, b), slotOrder, slotCourse);
    ResolveSettles(Merged(r, b), slotOrder, slotCourse);
  }

  lemma SoundAfterMerge(m: Summary, b: Summary)
    requires Sound(m) && Sound(b)
    ensures Sound(Merged(m, b)) && WithinCaps(Merged(m, b))
  {
    MergedFields(m, b);
  }

  /** If nothing is cut, nothing can take a place. */
  lemma RoomForAll(s: Summary, a: Summary, b: Summary, slotOrder: string, slotCourse: string)
    requires Sound(s) && Sound(a) && Sound(b) && |Merged(s, a).pending| + |b.pending| <= PENDING_CAP
    ensures Resolved(Merged(Resolved(Merged(s, a), slotOrder, slotCourse), b), slotOrder, slotCourse) ==
            Resolved(Merged(s, Merged(a, b)), slotOrder, slotCourse)
  {
    SettlingBetweenBatchesIff(s, a, b, slotOrder, slotCourse);
    MinusMembers(Plainly, Merged(s, a).pending, Slots(Plainly, b.pending));
  }

  // ----- An input where it matters

  lemma PlainFact(x: string)
    requires x != "" && !IsSpace(x[0]) && !IsSpace(Last(x))
    ensures ProperFact(x)
  {
    StripGives(x);
  }

  const OPEN_ITEMS := NOTHING.(pending := ["a", "b", "c", PENDING_COURSE])
  const COURSE_NAMED := NOTHING.(courses := ["k"])
  const NEW_ITEM := NOTHING.(pending := ["d"])

  lemma ExampleIsSound()
    ensures Sound(OPEN_ITEMS) && Sound(COURSE_NAMED) && Sound(NEW_ITEM)
  {
    StripGives("");
    PlainFact("a");
    PlainFact("b");
    PlainFact("c");
    PlainFact("d");
    PlainFact("k");
    PlainFact(PENDING_COURSE);
  }

  /** The oldest item is cut only while the settled one is still there. */
  lemma FirstItemIsHarmed()
    ensures var early := {SlotOf(Plainly, PENDING_COURSE)};
            !NoPlaceTaken(OPEN_ITEMS.pending, ["d"], PENDING_CAP, early, early)
  {
    var items, early := OPEN_ITEMS.pending, {SlotOf(Plainly, PENDING_COURSE)};
    MinusSnoc(Plainly, ["b", "c"], PENDING_COURSE, early);
    MinusMembers(Plainly, ["b", "c"], early);
    assert items[0 + 1..] == ["b", "c"] + [PENDING_COURSE];
    assert SlotOf(Plainly, items[0]) !in early;
    assert !Unharmed(items, ["d"], PENDING_CAP, early, early, 0);
  }

  /**
   Four items are pending, the last of them a course to confirm. A first batch names the course, a second one brings a
   new item. Batch by batch the settled item makes room; at once it is still there when the cap cuts, and the oldest
   item is lost.
   */
  lemma SettlingMakesRoom()
    ensures Sound(OPEN_ITEMS) && Sound(COURSE_NAMED) && Sound(NEW_ITEM)
    ensures Resolved(Merged(Resolved(Merged(OPEN_ITEMS, COURSE_NAMED), "", ""), NEW_ITEM), "", "") !=
            Resolved(Merged(OPEN_ITEMS, Merged(COURSE_NAMED, NEW_ITEM)), "", "")
  {
    ExampleIsSound();
    FirstItemIsHarmed();
    CourseMakesRoom(OPEN_ITEMS, COURSE_NAMED, NEW_ITEM);
  }

  /** A batch that names the first course, between pending items and a batch that brings others. */
  lemma CourseMakesRoom(s: Summary, a: Summary, b: Summary)
    requires Sound(s) && Sound(a) && Sound(b) && s.orders == a.orders == b.orders == []
    requires s.courses == [] && a.courses == ["k"] && b.courses == []
    requires a.pending == [] && |s.pending| <= PENDING_CAP && forall x :: x in s.pending ==> x !in b.pending
    requires var early := {SlotOf(Plainly, PENDING_COURSE)};
             !NoPlaceTaken(s.pending, b.pending, PENDING_CAP, early, early)
    ensures Resolved(Merged(Resolved(Merged(s, a), "", ""), b), "", "") != Resolved(Merged(s, Merged(a, b)), "", "")
  {
    SoundAfterMerge(s, a);
    CourseIsKnown(s, a);
    CourseIsKnown(Merged(s, a), b);
    PendingIsKept(s, a);
    PlaceTakenMatters(s, a, b, {SlotOf(Plainly, PENDING_COURSE)});
  }

  lemma PlaceTakenMatters(s: Summary, a: Summary, b: Summary, early: set<Slot>)
    requires Sound(s) && Sound(a) && Sound(b)
    requires Settled(Merged(s, a), "", "") == early == Settled(Merged(Merged(s, a), b), "", "")
    requires forall x :: x in Merged(s, a).pending ==> x !in b.pending
    requires !NoPlaceTaken(Merged(s, a).pending, b.pending, PENDING_CAP, early, early)
    ensures Resolved(Merged(Resolved(Merged(s, a), "", ""), b), "", "") != Resolved(Merged(s, Merged(a, b)), "", "")
  {
    NothingRepeated(Merged(s, a).pending, b.pending);
    SettlingBetweenBatchesIff(s, a, b, "", "");
  }

  lemma NothingRepeated(older: seq<string>, newer: seq<string>)
    requires forall x :: x in older ==> x !in newer
    ensures Minus(Plainly, older, Slots(Plainly, newer)) == older
  {
    MinusNone(Plainly, older, Slots(Plainly, newer));
  }

  lemma PendingIsKept(s: Summary, b: Summary)
    requires Sound(s) && Sound(b) && b.pending == [] && |s.pending| <= PENDING_CAP
    ensures Merged(s, b).pending == s.pending
  {
    MergedFields(s, b);
    MergeIdentity(Plainly, PENDING_CAP, s.pending);
  }

  /** With no orders anywhere and one course, just the item about courses is settled. */
  lemma CourseIsKnown(s: Summary, b: Summary)
    requires Sound(s) && Sound(b) && s.orders == b.orders == []
    requires (s.courses == [] && b.courses == ["k"]) || (s.courses == ["k"] && b.courses == [])
    ensures Merged(s, b).orders == [] && Merged(s, b).courses == ["k"]
    ensures Settled(Merged(s, b), "", "") == {SlotOf(Plainly, PENDING_COURSE)}
  {
    CourseAfterMerge(s, b);
    StripGives("");
  }

  lemma CourseAfterMerge(s: Summary, b: Summary)
    requires Sound(s) && Sound(b) && s.orders == b.orders == []
    requires (s.courses == [] && b.courses == ["k"]) || (s.courses == ["k"] && b.courses == [])
    ensures Merged(s, b).orders == [] && Merged(s, b).courses == ["k"]
  {
    MergedFields(s, b);
    MergeIdentity(Plainly, ORDERS_CAP, s.orders);
    MergeIdentity(Plainly, COURSES_CAP, ["k"]);
  }
}
