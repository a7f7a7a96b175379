/** Whitespace, and cutting and joining text at separators. */
module Text {
  import opened Sequences

  /** The characters that stripping removes. */
  predicate IsSpace(c: char) {
    || '\t' <= c <= '\r'
    || '\U{1c}' <= c <= ' '
    || c == '\U{85}' || c == '\U{a0}' || c == '\U{1680}'
    || '\U{2000}' <= c <= '\U{200a}'
    || c == '\U{2028}' || c == '\U{2029}' || c == '\U{202f}' || c == '\U{205f}' || c == '\U{3000}'
  }

  /** The characters at which text is cut into lines. */
  predicate IsBreak(c: char) {
    || '\n' <= c <= '\r'
    || '\U{1c}' <= c <= '\U{1e}'
    || c == '\U{85}' || c == '\U{2028}' || c == '\U{2029}'
  }

  function StripLeft(s: string): string {
    if s != "" && IsSpace(s[0]) then StripLeft(s[1..]) else s
  }

  function StripRight(s: string): string {
    if s != "" && IsSpace(Last(s)) then StripRight(Front(s)) else s
  }

  function Strip(s: string): string {
    StripRight(StripLeft(s))
  }

  /** Neither starts nor ends with whitespace. */
  predicate Trim(s: string) {
    s == "" || (!IsSpace(s[0]) && !IsSpace(Last(s)))
  }

  lemma {:induction false} StripLeftFacts(s: string)
    ensures StripLeft(s) == "" || !IsSpace(StripLeft(s)[0])
    ensures |StripLeft(s)| <= |s| && StripLeft(s) == s[|s| - |StripLeft(s)|..]
  {
    if s != "" && IsSpace(s[0]) {
      StripLeftFacts(s[1..]);
    }
  }

  lemma {:induction false} StripRightFacts(s: string)
    ensures StripRight(s) <= s
    ensures StripRight(s) == "" || !IsSpace(Last(StripRight(s)))
  {
    if s != "" && IsSpace(Last(s)) {
      StripRightFacts(Front(s));
    }
  }

  /** Stripping yields a piece of the text without whitespace at its ends. */
  lemma StripGives(s: string)
    ensures Trim(Strip(s))
    ensures forall c :: c in Strip(s) ==> c in s
    ensures Trim(s) ==> Strip(s) == s
  {
    StripLeftFacts(s);
    StripRightFacts(StripLeft(s));
  }

  /** Where text is cut: at line breaks, or at the full-width or ASCII semicolon between facts. */
  datatype Separator = LineBreaks | Semicolons

  predicate Cuts(sep: Separator, c: char) {
    match sep
    case LineBreaks => IsBreak(c)
    case Semicolons => c == '；' || c == ';'
  }

  predicate Free(s: string, sep: Separator) {
    forall i :: 0 <= i < |s| ==> !Cuts(sep, s[i])
  }

  /** The pieces between separators; there is always at least one piece. */
  function Split(s: string, sep: Separator): (pieces: seq<string>)
    ensures pieces != []
  {
    if s == "" then [""]
    else
      var before := Split(Front(s), sep);
      if Cuts(sep, Last(s)) then before + [""] else Front(before) + [Last(before) + [Last(s)]]
  }

  function Join(items: seq<string>, sep: string): string {
    if items == [] then ""
    else if |items| == 1 then items[0]
    else Join(Front(items), sep) + sep + Last(items)
  }

  lemma {:induction false} SplitFree(s: string, sep: Separator)
    requires Free(s, sep)
    ensures Split(s, sep) == [s]
  {
    if s != "" {
      SplitFree(Front(s), sep);
      assert s == Front(s) + [Last(s)];
    }
  }

  lemma {:induction false} SplitAppend(a: string, c: char, b: string, sep: Separator)
    requires Cuts(sep, c) && Free(b, sep)
    ensures Split(a + [c] + b, sep) == Split(a, sep) + [b]
  {
    var whole := a + [c] + b;
    if b == "" {
      assert whole == a + [c] && Front(whole) == a;
    } else {
      SplitAppend(a, c, Front(b), sep);
      assert Front(whole) == a + [c] + Front(b) && Last(whole) == Last(b);
      assert Front(Split(a, sep) + [Front(b)]) == Split(a, sep);
      assert b == Front(b) + [Last(b)];
    }
  }

  /** Splitting undoes joining when no item contains a separator. */
  lemma {:induction false} SplitJoin(items: seq<string>, c: char, sep: Separator)
    requires items != [] && Cuts(sep, c) && forall i :: 0 <= i < |items| ==> Free(items[i], sep)
    ensures Split(Join(items, [c]), sep) == items
  {
    if |items| == 1 {
      SplitFree(items[0], sep);
    } else {
      SplitJoin(Front(items), c, sep);
      SplitAppend(Join(Front(items), [c]), c, Last(items), sep);
      assert items == Front(items) + [Last(items)];
    }
  }

  lemma {:induction false} SplitPiecesFree(s: string, sep: Separator)
    ensures forall p :: p in Split(s, sep) ==> Free(p, sep) && forall c :: c in p ==> c in s
  {
    if s != "" {
      SplitPiecesFree(Front(s), sep);
      var before := Split(Front(s), sep);
      assert Last(before) in before;
      forall p | p in Split(s, sep) ensures Free(p, sep) && forall c :: c in p ==> c in s {
        if p in before {
          assert forall c :: c in Front(s) ==> c in s;
        } else if !Cuts(sep, Last(s)) {
          assert p == Last(before) + [Last(s)];
        }
      }
    }
  }

  /** A joined text starts like its first item, ends like its last one, and brings in only the separator. */
  lemma {:induction false} JoinEnds(items: seq<string>, sep: string)
    requires items != [] && forall i :: 0 <= i < |items| ==> items[i] != ""
    ensures Join(items, sep) != "" && Join(items, sep)[0] == items[0][0] && Last(Join(items, sep)) == Last(Last(items))
    ensures |Join(items, sep)| >= |Last(items)|
  {
    if |items| > 1 {
      JoinEnds(Front(items), sep);
    }
  }

  lemma {:induction false} JoinFree(items: seq<string>, joint: string, sep: Separator)
    requires Free(joint, sep) && forall i :: 0 <= i < |items| ==> Free(items[i], sep)
    ensures Free(Join(items, joint), sep)
  {
    if |items| > 1 {
      JoinFree(Front(items), joint, sep);
    }
  }
}

/**
 Bounded lists of facts in which a later fact replaces an earlier one of the same slot. A slot is the fact
 itself, or a group of labels that exclude each other.
 */
module FactLists {
  import opened Sequences
  import opened Text

  datatype Slot = Own(text: string) | Group(name: string)

  /** How facts are assigned to slots: each its own, or exclusive labels sharing one. */
  datatype Keying = Plainly | Exclusively

  const FITNESS := ["已确认不适合零基础", "适合零基础"]
  const REFUND := ["退款已完成", "退款审核中"]

  function SlotOf(key: Keying, fact: string): Slot {
    if key.Plainly? then Own(fact)
    else if fact in FITNESS then Group("fitness") else if fact in REFUND then Group("refund") else Own(fact)
  }

  function RivalsOf(fact: string): set<string> {
    if fact in FITNESS then (set l | l in FITNESS) - {fact}
    else if fact in REFUND then (set l | l in REFUND) - {fact}
    else {}
  }

  /** Sharing a slot is being the same fact or a rival of it. */
  lemma RivalsShareASlot(a: string, b: string)
    ensures SlotOf(Exclusively, a) == SlotOf(Exclusively, b) <==> a == b || a in RivalsOf(b)
  {}

  lemma RivalsShareTheSlot(text: string)
    ensures forall x :: SlotOf(Exclusively, x) == SlotOf(Exclusively, text) <==> x == text || x in RivalsOf(text)
  {
    forall x ensures SlotOf(Exclusively, x) == SlotOf(Exclusively, text) <==> x == text || x in RivalsOf(text) {
      RivalsShareASlot(x, text);
    }
  }

  /** The list without the facts in the slots of `gone`. */
  function Minus(key: Keying, xs: seq<string>, gone: set<Slot>): seq<string> {
    if xs == [] then []
    else Minus(key, Front(xs), gone) + if SlotOf(key, Last(xs)) in gone then [] else [Last(xs)]
  }

  function Slots(key: Keying, xs: seq<string>): set<Slot> {
    set x | x in xs :: SlotOf(key, x)
  }

  /** The stripped texts of the items that have one. */
  function Texts(items: seq<string>): seq<string> {
    if items == [] then []
    else Texts(Front(items)) + if Strip(Last(items)) == "" then [] else [Strip(Last(items))]
  }

  /** Write one fact: drop what it replaces, append it. */
  function Write(key: Keying, xs: seq<string>, text: string): seq<string> {
    Minus(key, xs, {SlotOf(key, text)}) + [text]
  }

  function WriteAll(key: Keying, xs: seq<string>, items: seq<string>): seq<string> {
    if items == [] then xs else Write(key, WriteAll(key, xs, Front(items)), Last(items))
  }

  /** The newest `cap` facts. */
  function Newest(xs: seq<string>, cap: nat): (ys: seq<string>)
    ensures |ys| <= cap && |ys| <= |xs|
  {
    if |xs| <= cap then xs else xs[|xs| - cap..]
  }

  /** The slice that caps a list: a cap of zero cuts nothing off, because the slice then starts at the front. */
  function Capped(xs: seq<string>, cap: nat): seq<string> {
    if cap == 0 then xs else Newest(xs, cap)
  }

  lemma WriteAllSnoc(key: Keying, xs: seq<string>, items: seq<string>, text: string)
    ensures WriteAll(key, xs, items + [text]) == Write(key, WriteAll(key, xs, items), text)
  {
    assert Front(items + [text]) == items;
  }

  lemma TextsNext(items: seq<string>, i: nat)
    requires i < |items|
    ensures Texts(items[..i + 1]) ==
            if Strip(items[i]) == "" then Texts(items[..i]) else Texts(items[..i]) + [Strip(items[i])]
  {
    assert Front(items[..i + 1]) == items[..i];
  }

  // ----- The loops of the source

  method Without(xs: seq<string>, key: Keying, text: string, rivals: set<string>) returns (out: seq<string>)
    requires forall x :: SlotOf(key, x) == SlotOf(key, text) <==> x == text || x in rivals
    ensures out == Minus(key, xs, {SlotOf(key, text)})
  {
    out := [];
    for i := 0 to |xs|
      invariant out == Minus(key, xs[..i], {SlotOf(key, text)})
    {
      assert Front(xs[..i + 1]) == xs[..i];
      if xs[i] != text && xs[i] !in rivals {
        out := out + [xs[i]];
      }
    }
    assert xs[..|xs|] == xs;
  }

  method PrependUnique(existing: seq<string>, incoming: seq<string>, cap: nat) returns (out: seq<string>)
    ensures out == Capped(WriteAll(Plainly, existing, Texts(incoming)), cap)
  {
    out := existing;
    for i := 0 to |incoming|
      invariant out == WriteAll(Plainly, existing, Texts(incoming[..i]))
    {
      TextsNext(incoming, i);
      var text := Strip(incoming[i]);
      if text != "" {
        WriteAllSnoc(Plainly, existing, Texts(incoming[..i]), text);
        out := Without(out, Plainly, text, {});
        out := out + [text];
      }
    }
    assert incoming[..|incoming|] == incoming;
    if 0 < cap < |out| {
      out := out[|out| - cap..];
    }
  }

  method ApplyExclusiveSequence(labels: seq<string>, cap: Option<nat>) returns (out: seq<string>)
    ensures var all := WriteAll(Exclusively, [], Texts(labels));
            out == if cap.None? then all else Capped(all, cap.value)
  {
    out := [];
    for i := 0 to |labels|
      invariant out == WriteAll(Exclusively, [], Texts(labels[..i]))
    {
      TextsNext(labels, i);
      var text := Strip(labels[i]);
      if text != "" {
        RivalsShareTheSlot(text);
        WriteAllSnoc(Exclusively, [], Texts(labels[..i]), text);
        out := Without(out, Exclusively, text, RivalsOf(text));
        out := out + [text];
      }
    }
    assert labels[..|labels|] == labels;
    if cap.Some? && 0 < cap.value < |out| {
      out := out[|out| - cap.value..];
    }
  }

  // ----- Well-formed lists

  /** Facts in pairwise different slots. */
  ghost predicate WellFormed(key: Keying, xs: seq<string>) {
    forall i, j :: 0 <= i < j < |xs| ==> SlotOf(key, xs[i]) != SlotOf(key, xs[j])
  }

  lemma {:induction false} MinusMembers(key: Keying, xs: seq<string>, gone: set<Slot>)
    ensures forall x :: x in Minus(key, xs, gone) <==> x in xs && SlotOf(key, x) !in gone
    ensures |Minus(key, xs, gone)| <= |xs|
  {
    if xs != [] {
      MinusMembers(key, Front(xs), gone);
    }
  }

  lemma {:induction false} MinusWellFormed(key: Keying, xs: seq<string>, gone: set<Slot>)
    requires WellFormed(key, xs)
    ensures WellFormed(key, Minus(key, xs, gone))
  {
    if xs != [] {
      assert WellFormed(key, Front(xs));
      MinusWellFormed(key, Front(xs), gone);
      MinusMembers(key, Front(xs), gone);
      forall x | x in Minus(key, Front(xs), gone) ensures SlotOf(key, x) != SlotOf(key, Last(xs)) {
        var i :| 0 <= i < |xs| - 1 && xs[i] == x;
      }
    }
  }

  lemma MinusFacts(key: Keying, xs: seq<string>, gone: set<Slot>)
    ensures forall x :: x in Minus(key, xs, gone) <==> x in xs && SlotOf(key, x) !in gone
    ensures |Minus(key, xs, gone)| <= |xs|
    ensures WellFormed(key, xs) ==> WellFormed(key, Minus(key, xs, gone))
  {
    MinusMembers(key, xs, gone);
    if WellFormed(key, xs) {
      MinusWellFormed(key, xs, gone);
    }
  }

  lemma {:induction false} MinusAppend(key: Keying, xs: seq<string>, ys: seq<string>, gone: set<Slot>)
    ensures Minus(key, xs + ys, gone) == Minus(key, xs, gone) + Minus(key, ys, gone)
  {
    if ys == [] {
      assert xs + ys == xs;
    } else {
      MinusAppend(key, xs, Front(ys), gone);
      assert Front(xs + ys) == xs + Front(ys);
    }
  }

  lemma {:induction false} MinusMinus(key: Keying, xs: seq<string>, a: set<Slot>, b: set<Slot>)
    ensures Minus(key, Minus(key, xs, a), b) == Minus(key, xs, a + b)
  {
    if xs != [] {
      MinusMinus(key, Front(xs), a, b);
      if SlotOf(key, Last(xs)) in a {
        assert Minus(key, xs, a) == Minus(key, Front(xs), a);
      } else {
        MinusSnoc(key, Minus(key, Front(xs), a), Last(xs), b);
      }
    }
  }

  lemma MinusSnoc(key: Keying, xs: seq<string>, x: string, gone: set<Slot>)
    ensures Minus(key, xs + [x], gone) == Minus(key, xs, gone) + if SlotOf(key, x) in gone then [] else [x]
  {
    assert Front(xs + [x]) == xs;
  }

  lemma SlotsSnoc(key: Keying, items: seq<string>)
    requires items != []
    ensures Slots(key, items) == Slots(key, Front(items)) + {SlotOf(key, Last(items))}
  {
    assert items == Front(items) + [Last(items)];
  }

  lemma {:induction false} MinusNone(key: Keying, xs: seq<string>, gone: set<Slot>)
    requires forall x :: x in xs ==> SlotOf(key, x) !in gone
    ensures Minus(key, xs, gone) == xs
  {
    if xs != [] {
      MinusNone(key, Front(xs), gone);
    }
  }

  /** Writing well-formed facts: what they replace goes, then they follow in order. */
  lemma {:induction false} WriteAllIs(key: Keying, xs: seq<string>, items: seq<string>)
    requires WellFormed(key, items)
    ensures WriteAll(key, xs, items) == Minus(key, xs, Slots(key, items)) + items
  {
    if items == [] {
      MinusNone(key, xs, {});
      assert Slots(key, items) == {};
    } else {
      var before, last := Front(items), Last(items);
      var slot := SlotOf(key, last);
      assert WellFormed(key, before);
      WriteAllIs(key, xs, before);
      var kept := Minus(key, xs, Slots(key, before));
      assert Minus(key, kept + before, {slot}) == Minus(key, kept, {slot}) + before by {
        MinusAppend(key, kept, before, {slot});
        MinusNone(key, before, {slot});
      }
      assert Minus(key, kept, {slot}) == Minus(key, xs, Slots(key, items)) by {
        MinusMinus(key, xs, Slots(key, before), {slot});
        SlotsSnoc(key, items);
      }
      assert before + [last] == items;
    }
  }

  lemma WriteAllKeepsWellFormed(key: Keying, xs: seq<string>, items: seq<string>)
    requires WellFormed(key, xs) && WellFormed(key, items)
    ensures WellFormed(key, WriteAll(key, xs, items))
  {
    WriteAllIs(key, xs, items);
    var kept := Minus(key, xs, Slots(key, items));
    MinusFacts(key, xs, Slots(key, items));
    forall i, j | 0 <= i < j < |kept + items| ensures SlotOf(key, (kept + items)[i]) != SlotOf(key, (kept + items)[j]) {
      if i < |kept| <= j {
        assert kept[i] in kept && items[j - |kept|] in items;
      }
    }
  }

  // ----- The capped list as a monoid

  /** The source's bounded update. */
  function Merge(key: Keying, cap: nat, a: seq<string>, b: seq<string>): seq<string> {
    Newest(WriteAll(key, a, b), cap)
  }

  lemma NewestKeepsWellFormed(key: Keying, xs: seq<string>, cap: nat)
    requires WellFormed(key, xs)
    ensures WellFormed(key, Newest(xs, cap))
  {}

  lemma {:induction false} MinusOne(key: Keying, xs: seq<string>, slot: Slot)
    requires WellFormed(key, xs)
    ensures |Minus(key, xs, {slot})| >= |xs| - 1
  {
    if xs != [] {
      assert WellFormed(key, Front(xs));
      if SlotOf(key, Last(xs)) == slot {
        MinusNone(key, Front(xs), {slot});
      } else {
        MinusOne(key, Front(xs), slot);
      }
    }
  }

  /** Each written fact replaces at most one: slots are pairwise different. */
  lemma {:induction false} MinusLength(key: Keying, xs: seq<string>, items: seq<string>)
    requires WellFormed(key, xs)
    ensures |Minus(key, xs, Slots(key, items))| >= |xs| - |items|
  {
    if items == [] {
      MinusNone(key, xs, Slots(key, items));
    } else {
      MinusLength(key, xs, Front(items));
      MinusFacts(key, xs, Slots(key, Front(items)));
      MinusOne(key, Minus(key, xs, Slots(key, Front(items))), SlotOf(key, Last(items)));
      MinusMinus(key, xs, Slots(key, Front(items)), {SlotOf(key, Last(items))});
      SlotsSnoc(key, items);
    }
  }

  lemma NewestOfAppend(xs: seq<string>, ys: seq<string>, cap: nat)
    requires |ys| >= cap
    ensures Newest(xs + ys, cap) == Newest(ys, cap)
  {}

  lemma WriteAllSplits(key: Keying, older: seq<string>, newer: seq<string>, c: seq<string>)
    requires WellFormed(key, c)
    ensures WriteAll(key, older + newer, c) == Minus(key, older, Slots(key, c)) + WriteAll(key, newer, c)
  {
    WriteAllIs(key, older + newer, c);
    WriteAllIs(key, newer, c);
    MinusAppend(key, older, newer, Slots(key, c));
  }

  lemma WriteAllGrows(key: Keying, xs: seq<string>, c: seq<string>)
    requires WellFormed(key, xs) && WellFormed(key, c)
    ensures |WriteAll(key, xs, c)| >= |xs|
  {
    WriteAllIs(key, xs, c);
    MinusLength(key, xs, c);
  }

  /** Capping the left operand first loses nothing: what the cap cut off could not have come back. */
  lemma CapLeft(key: Keying, cap: nat, x: seq<string>, c: seq<string>)
    requires WellFormed(key, x) && WellFormed(key, c)
    ensures Merge(key, cap, Newest(x, cap), c) == Merge(key, cap, x, c)
  {
    if |x| > cap {
      var older, newer := x[..|x| - cap], x[|x| - cap..];
      assert x == older + newer;
      WriteAllSplits(key, older, newer, c);
      WriteAllGrows(key, newer, c);
      NewestOfAppend(Minus(key, older, Slots(key, c)), WriteAll(key, newer, c), cap);
    }
  }

  /** Capping the right operand first loses nothing either. */
  lemma CapRight(key: Keying, cap: nat, a: seq<string>, y: seq<string>)
    requires WellFormed(key, y)
    ensures Merge(key, cap, a, Newest(y, cap)) == Merge(key, cap, a, y)
  {
    if |y| > cap {
      NewestKeepsWellFormed(key, y, cap);
      WriteAllIs(key, a, y);
      WriteAllIs(key, a, Newest(y, cap));
      NewestOfAppend(Minus(key, a, Slots(key, y)), y, cap);
      NewestOfAppend(Minus(key, a, Slots(key, Newest(y, cap))), Newest(y, cap), cap);
    }
  }

  lemma WriteTwice(key: Keying, a: seq<string>, b: seq<string>, c: seq<string>)
    requires WellFormed(key, b) && WellFormed(key, c)
    ensures WriteAll(key, WriteAll(key, a, b), c) == Minus(key, a, Slots(key, b) + Slots(key, c)) + WriteAll(key, b, c)
  {
    WriteAllIs(key, a, b);
    WriteAllSplits(key, Minus(key, a, Slots(key, b)), b, c);
    MinusMinus(key, a, Slots(key, b), Slots(key, c));
  }

  lemma SlotsOfWritten(key: Keying, b: seq<string>, c: seq<string>)
    requires WellFormed(key, c)
    ensures Slots(key, WriteAll(key, b, c)) == Slots(key, b) + Slots(key, c)
  {
    WriteAllIs(key, b, c);
    MinusFacts(key, b, Slots(key, c));
  }

  lemma WriteAllAssociative(key: Keying, a: seq<string>, b: seq<string>, c: seq<string>)
    requires WellFormed(key, b) && WellFormed(key, c)
    ensures WriteAll(key, WriteAll(key, a, b), c) == WriteAll(key, a, WriteAll(key, b, c))
  {
    WriteTwice(key, a, b, c);
    WriteAllKeepsWellFormed(key, b, c);
    SlotsOfWritten(key, b, c);
    WriteAllIs(key, a, WriteAll(key, b, c));
  }

  /** Bounded, deduplicating, slot-exclusive lists merge associatively. */
  lemma MergeAssociative(key: Keying, cap: nat, a: seq<string>, b: seq<string>, c: seq<string>)
    requires WellFormed(key, a) && WellFormed(key, b) && WellFormed(key, c)
    ensures Merge(key, cap, Merge(key, cap, a, b), c) == Merge(key, cap, a, Merge(key, cap, b, c))
  {
    WriteAllKeepsWellFormed(key, a, b);
    WriteAllKeepsWellFormed(key, b, c);
    CapLeft(key, cap, WriteAll(key, a, b), c);
    CapRight(key, cap, a, WriteAll(key, b, c));
    WriteAllAssociative(key, a, b, c);
  }

  /** The empty list is an identity on well-formed lists within the cap. */
  lemma MergeIdentity(key: Keying, cap: nat, a: seq<string>)
    requires WellFormed(key, a) && |a| <= cap
    ensures Merge(key, cap, a, []) == a && Merge(key, cap, [], a) == a
  {
    WriteAllIs(key, [], a);
  }

  lemma MergeKeepsWellFormed(key: Keying, cap: nat, a: seq<string>, b: seq<string>)
    requires WellFormed(key, a) && WellFormed(key, b)
    ensures WellFormed(key, Merge(key, cap, a, b)) && |Merge(key, cap, a, b)| <= cap
  {
    WriteAllKeepsWellFormed(key, a, b);
  }
}
