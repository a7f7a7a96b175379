/** The rolling summary in a reader's terms: which facts survive, which are given up, what is printed and read. */
module SummaryLaws {
  import opened Sequences
  import opened Text
  import opened FactLists
  import opened SessionSummary
  import opened SummaryText

  // ----- Which facts a bounded list holds

  /** The labels that exclude each other. */
  lemma RivalsInWords(x: string)
    ensures RivalsOf(x) ==
            (if x == "已确认不适合零基础" then {"适合零基础"}
             else if x == "适合零基础" then {"已确认不适合零基础"}
             else if x == "退款已完成" then {"退款审核中"}
             else if x == "退款审核中" then {"退款已完成"}
             else {})
  {
    FourLabels();
    assert RivalsOf(x) == if x in FITNESS then {FITNESS[0], FITNESS[1]} - {x}
                          else if x in REFUND then {REFUND[0], REFUND[1]} - {x} else {};
  }

  lemma FourLabels()
    ensures |"适合零基础"| == 5 && |"退款审核中"| == 5 && |"退款已完成"| == 5 && |"已确认不适合零基础"| == 9
    ensures "退款审核中" != "退款已完成" && "适合零基础" != "退款已完成" && "适合零基础" != "退款审核中"
  {
    assert "退款审核中"[2] != "退款已完成"[2];
    assert "适合零基础"[0] != "退款已完成"[0];
    assert "适合零基础"[0] != "退款审核中"[0];
  }

  /** A fact of `later` is this fact or, among exclusive labels, excludes it. */
  ghost predicate Beaten(key: Keying, x: string, later: seq<string>) {
    exists y :: y in later && (x == y || (key.Exclusively? && x in RivalsOf(y)))
  }

  /** The facts that no fact of `later` replaces, in order. */
  ghost function Unbeaten(key: Keying, xs: seq<string>, later: seq<string>): seq<string> {
    if xs == [] then []
    else (if Beaten(key, xs[0], later) then [] else [xs[0]]) + Unbeaten(key, xs[1..], later)
  }

  /** The facts that no fact after them in the list replaces, in order. */
  ghost function Survivors(key: Keying, xs: seq<string>): seq<string> {
    if xs == [] then []
    else (if Beaten(key, xs[0], xs[1..]) then [] else [xs[0]]) + Survivors(key, xs[1..])
  }

  lemma BeatenByOne(key: Keying, x: string, y: string)
    ensures Beaten(key, x, [y]) <==> SlotOf(key, x) == SlotOf(key, y)
  {
    assert y in [y];
    if key.Exclusively? {
      RivalsShareASlot(x, y);
    }
  }

  lemma BeatenByMore(key: Keying, x: string, later: seq<string>, y: string)
    ensures Beaten(key, x, later + [y]) <==> Beaten(key, x, later) || Beaten(key, x, [y])
  {
    assert forall z :: z in later + [y] <==> z in later || z in [y];
  }

  lemma {:induction false} UnbeatenByOne(key: Keying, xs: seq<string>, y: string)
    ensures Unbeaten(key, xs, [y]) == Minus(key, xs, {SlotOf(key, y)})
  {
    if xs != [] {
      UnbeatenByOne(key, xs[1..], y);
      BeatenByOne(key, xs[0], y);
      assert xs == [xs[0]] + xs[1..];
      MinusAppend(key, [xs[0]], xs[1..], {SlotOf(key, y)});
      assert Front([xs[0]]) == [];
      assert Minus(key, [], {SlotOf(key, y)}) == [];
    }
  }

  lemma {:induction false} UnbeatenMore(key: Keying, xs: seq<string>, later: seq<string>, y: string)
    ensures Unbeaten(key, xs, later + [y]) == Unbeaten(key, Unbeaten(key, xs, later), [y])
  {
    if xs != [] {
      UnbeatenMore(key, xs[1..], later, y);
      BeatenByMore(key, xs[0], later, y);
      var rest := Unbeaten(key, xs[1..], later);
      assert ([xs[0]] + rest)[1..] == rest;
      assert [] + rest == rest;
    }
  }

  lemma UnbeatenCons(key: Keying, x: string, rest: seq<string>, later: seq<string>)
    ensures Unbeaten(key, [x] + rest, later) == (if Beaten(key, x, later) then [] else [x]) + Unbeaten(key, rest, later)
  {
    assert ([x] + rest)[1..] == rest;
  }

  lemma {:induction false} UnbeatenAppend(key: Keying, xs: seq<string>, ys: seq<string>, later: seq<string>)
    ensures Unbeaten(key, xs + ys, later) == Unbeaten(key, xs, later) + Unbeaten(key, ys, later)
  {
    if xs == [] {
      assert xs + ys == ys;
    } else {
      UnbeatenAppend(key, xs[1..], ys, later);
      UnbeatenCons(key, xs[0], xs[1..], later);
      UnbeatenCons(key, xs[0], xs[1..] + ys, later);
      assert [xs[0]] + xs[1..] == xs && [xs[0]] + (xs[1..] + ys) == xs + ys;
    }
  }

  lemma {:induction false} SurvivorsMore(key: Keying, items: seq<string>, y: string)
    ensures Survivors(key, items + [y]) == Unbeaten(key, Survivors(key, items), [y]) + [y]
  {
    if items == [] {
      assert items + [y] == [y] && !Beaten(key, y, []) && [y][1..] == [];
    } else {
      SurvivorsMore(key, items[1..], y);
      assert (items + [y])[1..] == items[1..] + [y];
      BeatenByMore(key, items[0], items[1..], y);
      var rest := Survivors(key, items[1..]);
      assert ([items[0]] + rest)[1..] == rest;
      assert [] + rest == rest;
    }
  }

  /**
   What writing facts one after the other leaves, for all lists: the old facts that no new one replaces, then
   the new ones that no later one replaces.
   */
  lemma {:induction false} WrittenInWords(key: Keying, xs: seq<string>, items: seq<string>)
    ensures WriteAll(key, xs, items) == Unbeaten(key, xs, items) + Survivors(key, items)
  {
    if items == [] {
      NoneBeaten(key, xs);
      assert xs + [] == xs;
    } else {
      var before, y := Front(items), Last(items);
      WrittenInWords(key, xs, before);
      assert items == before + [y];
      UnbeatenByOne(key, WriteAll(key, xs, before), y);
      UnbeatenAppend(key, Unbeaten(key, xs, before), Survivors(key, before), [y]);
      UnbeatenMore(key, xs, before, y);
      SurvivorsMore(key, before, y);
    }
  }

  lemma {:induction false} NoneBeaten(key: Keying, xs: seq<string>)
    ensures Unbeaten(key, xs, []) == xs
  {
    if xs != [] {
      NoneBeaten(key, xs[1..]);
    }
  }

  /** The last `n` facts of a list, all of them when there are fewer. */
  function LastOf(xs: seq<string>, n: nat): seq<string> {
    xs[if |xs| < n then 0 else |xs| - n..]
  }

  /** Old facts that no new one replaces, then new ones that no later one replaces: the last `cap` of them. */
  ghost function Bounded(older: seq<string>, newer: seq<string>, cap: nat): seq<string> {
    LastOf(Unbeaten(Plainly, older, newer) + Survivors(Plainly, newer), cap)
  }

  /** A merge, field by field, for all summaries: three orders, three courses, six labels, four pending items. */
  lemma MergeInWords(a: Summary, b: Summary)
    ensures Merged(a, b).orders == Bounded(a.orders, Texts(b.orders), 3)
    ensures Merged(a, b).courses == Bounded(a.courses, Texts(b.courses), 3)
    ensures Merged(a, b).pending == Bounded(a.pending, Texts(b.pending), 4)
    ensures Merged(a, b).confirmed == LastOf(Survivors(Exclusively, Texts(a.confirmed + b.confirmed)), 6)
    ensures Merged(a, b).intent == if b.intent == "" then Strip(a.intent) else Strip(b.intent)
  {
    WrittenInWords(Plainly, a.orders, Texts(b.orders));
    WrittenInWords(Plainly, a.courses, Texts(b.courses));
    WrittenInWords(Plainly, a.pending, Texts(b.pending));
    ConfirmedInWords(a.confirmed + b.confirmed);
  }

  lemma ConfirmedInWords(labels: seq<string>)
    ensures Newest(WriteAll(Exclusively, [], Texts(labels)), 6) == LastOf(Survivors(Exclusively, Texts(labels)), 6)
  {
    WrittenInWords(Exclusively, [], Texts(labels));
    assert [] + Survivors(Exclusively, Texts(labels)) == Survivors(Exclusively, Texts(labels));
  }

  /** Settling: the labels are deduplicated again, and an item asking for what is known is no longer pending. */
  lemma ResolveInWords(s: Summary, slotOrder: string, slotCourse: string)
    ensures var r := Resolved(s, slotOrder, slotCourse);
            && r.orders == s.orders && r.courses == s.courses && r.intent == s.intent
            && r.confirmed == LastOf(Survivors(Exclusively, Texts(s.confirmed)), 6)
            && forall x :: x in r.pending <==>
                 && x in s.pending
                 && !(x == "待提供订单号" && (s.orders != [] || Strip(slotOrder) != ""))
                 && !(x == "待确认课程" && (s.courses != [] || Strip(slotCourse) != ""))
  {
    var hasOrder, hasCourse := s.orders != [] || Strip(slotOrder) != "", s.courses != [] || Strip(slotCourse) != "";
    ConfirmedInWords(s.confirmed);
    DroppedItem(s.pending, hasOrder, PENDING_ORDER_NO);
    DroppedItem(Dropping(s.pending, hasOrder, PENDING_ORDER_NO), hasCourse, PENDING_COURSE);
  }

  lemma DroppedItem(xs: seq<string>, drop: bool, text: string)
    ensures forall x :: x in Dropping(xs, drop, text) <==> x in xs && !(drop && x == text)
  {
    MinusMembers(Plainly, xs, {SlotOf(Plainly, text)});
  }

  // ----- What is printed

  /** The printed lines: one per section that has something, in this order and under these names. */
  lemma LinesInWords(s: Summary)
    ensures Lines(s) == Join(
              (if s.orders == [] then [] else ["订单：" + Join(s.orders, "；")]) +
              (if s.courses == [] then [] else ["课程：" + Join(s.courses, "；")]) +
              (if s.intent == "" then [] else ["意图：" + s.intent]) +
              (if s.confirmed == [] then [] else ["已确认：" + Join(s.confirmed, "；")]) +
              (if s.pending == [] then [] else ["未决：" + Join(s.pending, "；")]), "\n")
  {
    assert "订单" + "：" == "订单：" && "课程" + "：" == "课程：" && "意图" + "：" == "意图：";
    assert "已确认" + "：" == "已确认：" && "未决" + "：" == "未决：";
  }

  ghost predicate InOrder(s: Summary, t: Summary) {
    && (t.pending != s.pending ==> |t.confirmed| <= 1)
    && (t.orders != s.orders ==> |t.confirmed| <= 1 && |t.pending| <= 1)
    && (t.courses != s.courses ==> |t.confirmed| <= 1 && |t.pending| <= 1 && |t.orders| <= 1)
  }

  ghost predicate NoLonger(next: Summary, t: Summary) {
    |t.confirmed| <= |next.confirmed| && |t.pending| <= |next.pending| && |t.orders| <= |next.orders|
  }

  lemma DropInOrder(s: Summary, t: Summary)
    requires NoLonger(DropOldest(s), t) && InOrder(DropOldest(s), t)
    ensures InOrder(s, t)
  {}

  lemma {:induction false} ShrinkInOrder(s: Summary, limit: nat)
    ensures InOrder(s, Shrink(s, limit))
    decreases Size(s)
  {
    ShrinkStep(s, limit);
    if |Lines(s)| > limit && !AtMostOneEach(s) {
      ShrinkInOrder(DropOldest(s), limit);
      ShrinkKeepsNewest(DropOldest(s), limit);
      DropInOrder(s, Shrink(s, limit));
    }
  }

  /** What a bounded print gives up goes in one order: no list loses a fact while an earlier one could. */
  lemma FactsAreGivenUpInOrder(s: Summary, limit: nat)
    ensures var t := Shrink(s, limit);
            && (t.pending != s.pending ==> |t.confirmed| <= 1)
            && (t.orders != s.orders ==> |t.confirmed| <= 1 && |t.pending| <= 1)
            && (t.courses != s.courses ==> |t.confirmed| <= 1 && |t.pending| <= 1 && |t.orders| <= 1)
  {
    ShrinkInOrder(s, limit);
  }

  /** `u` is `t` with the fact given up last put back. */
  ghost predicate OneBefore(s: Summary, u: Summary, t: Summary) {
    CutTo(s, u) && InOrder(s, u) && CutTo(u, t) && Size(u) == Size(t) + 1
  }

  lemma OneBeforeEarlier(s: Summary, u: Summary, t: Summary)
    requires OneBefore(DropOldest(s), u, t)
    ensures OneBefore(s, u, t)
  {
    DropIsCut(s);
    CutToTransitive(s, DropOldest(s), u);
    DropInOrder(s, u);
  }

  lemma CutToItself(s: Summary)
    ensures CutTo(s, s)
  {
    KeepsNewestOne(s.orders);
    KeepsNewestOne(s.courses);
    KeepsNewestOne(s.confirmed);
    KeepsNewestOne(s.pending);
  }

  lemma DropsOne(s: Summary)
    requires !AtMostOneEach(s)
    ensures Size(s) == Size(DropOldest(s)) + 1
  {}

  lemma OneBeforeFirst(s: Summary)
    requires !AtMostOneEach(s)
    ensures OneBefore(s, s, DropOldest(s))
  {
    DropIsCut(s);
    CutToItself(s);
    DropsOne(s);
  }

  /** No fact is given up in vain: with the one given up last put back, the lines would not fit. */
  lemma {:induction false} NoFactIsGivenUpInVain(s: Summary, limit: nat)
    requires Shrink(s, limit) != s
    ensures exists u :: OneBefore(s, u, Shrink(s, limit)) && |Lines(u)| > limit
    decreases Size(s)
  {
    ShrinkStep(s, limit);
    var next := DropOldest(s);
    if Shrink(next, limit) == next {
      OneBeforeFirst(s);
    } else {
      NoFactIsGivenUpInVain(next, limit);
      var u :| OneBefore(next, u, Shrink(next, limit)) && |Lines(u)| > limit;
      OneBeforeEarlier(s, u, Shrink(next, limit));
    }
  }

  /** The summary with at most the newest fact of each list. */
  function NewestFacts(s: Summary): Summary {
    Summary(LastOf(s.orders, 1), LastOf(s.courses, 1), s.intent, LastOf(s.confirmed, 1), LastOf(s.pending, 1))
  }

  lemma NewestFactsAreNewest(s: Summary)
    ensures NewestOnly(s) == NewestFacts(s)
  {}

  lemma NewestFactsFitIff(s: Summary, limit: nat)
    ensures |Lines(Shrink(s, limit))| <= limit <==> |Lines(NewestFacts(s))| <= limit
  {
    RawTailIff(s, limit);
    NewestFactsAreNewest(s);
  }

  lemma ShrunkToNewest(s: Summary, limit: nat)
    requires |Lines(NewestFacts(s))| > limit
    ensures Shrink(s, limit) == NewestFacts(s)
  {
    NewestFactsFitIff(s, limit);
    ShrinkKeepsNewest(s, limit);
    CutToOneIsNewest(s, Shrink(s, limit));
    NewestFactsAreNewest(s);
  }

  lemma RenderedIs(s: Summary, n: int, limit: nat, t: Summary)
    requires limit == (if n < 80 then 80 else n) && t == Shrink(s, limit)
    ensures |Lines(t)| <= limit ==> Rendered(s, Some(n)) == Lines(t)
    ensures |Lines(t)| > limit ==> Rendered(s, Some(n)) == Lines(t)[|Lines(t)| - limit..]
  {}

  /** The bound is at least eighty characters. Where even the newest facts do not fit, the end of their lines is printed. */
  lemma TailOfNewestIsPrinted(s: Summary, n: int, limit: nat)
    requires limit == (if n < 80 then 80 else n) && |Lines(NewestFacts(s))| > limit
    ensures var least := Lines(NewestFacts(s)); Rendered(s, Some(n)) == least[|least| - limit..]
  {
    ShrunkToNewest(s, limit);
    RenderedIs(s, n, limit, NewestFacts(s));
  }

  /** Where the newest facts fit, the lines of the shrunk summary are printed whole, and they fit. */
  lemma ShrunkLinesArePrinted(s: Summary, n: int, limit: nat)
    requires limit == (if n < 80 then 80 else n) && |Lines(NewestFacts(s))| <= limit
    ensures Rendered(s, Some(n)) == Lines(Shrink(s, limit)) && |Rendered(s, Some(n))| <= limit
  {
    NewestFactsFitIff(s, limit);
    RenderedIs(s, n, limit, Shrink(s, limit));
  }

  /** A summary that fits is printed as it is, and without a bound every summary is. */
  lemma NothingToGiveUp(s: Summary, n: int)
    requires |Lines(s)| <= n || |Lines(s)| <= 80
    ensures Rendered(s, Some(n)) == Lines(s) && Rendered(s, None) == Lines(s)
  {
    var limit := if n < 80 then 80 else n;
    ShrinkKeepsNewest(s, limit);
    RenderedIs(s, n, limit, s);
  }

  // ----- What is read

  /** A line belongs to a section when it starts with the section's name and a colon, full-width or ASCII. */
  lemma SectionLineIff(section: Section, line: string)
    ensures SectionOf(line) == Some(section) <==>
            exists v :: line == Key(section) + "：" + v || line == Key(section) + ":" + v
  {
    if v :| line == Key(section) + "：" + v || line == Key(section) + ":" + v {
      assert line[..|Key(section)|] == Key(section);
      SectionIsUnique(section, line);
    }
    if SectionOf(line) == Some(section) {
      var v := line[|Key(section)| + 1..];
      assert line == Key(section) + [line[|Key(section)|]] + v;
    }
  }

  /** What such a line is read as: the stripped text behind the colon, for a list cut at every semicolon. */
  lemma SectionLineValue(section: Section, v: string)
    ensures Value(section, Key(section) + "：" + v) == Strip(v) && Value(section, Key(section) + ":" + v) == Strip(v)
  {
    SectionLineIff(section, Key(section) + "：" + v);
    SectionLineIff(section, Key(section) + ":" + v);
    assert (Key(section) + "：" + v)[|Key(section)| + 1..] == v;
    assert (Key(section) + ":" + v)[|Key(section)| + 1..] == v;
  }

  lemma SplitSnoc(s: string, x: char, sep: Separator)
    ensures var before := Split(s, sep);
            Split(s + [x], sep) ==
            if Cuts(sep, x) then before + [""] else Front(before) + [Last(before) + [x]]
  {
    assert Front(s + [x]) == s;
  }

  lemma Reassociate<T>(xs: seq<T>, ys: seq<T>)
    requires ys != []
    ensures xs + ys == xs + Front(ys) + [Last(ys)]
  {}

  /** One character more, behind some pieces and behind the same pieces after others. */
  lemma SplitFromStep(before: seq<string>, pieces: seq<string>, x: char, cuts: bool)
    requires pieces != []
    ensures (if cuts then before + pieces + [""] else Front(before + pieces) + [Last(before + pieces) + [x]]) ==
            before + if cuts then pieces + [""] else Front(pieces) + [Last(pieces) + [x]]
  {}

  lemma {:induction false} SplitFrom(head: string, before: seq<string>, b: string, sep: Separator)
    requires Split(head, sep) == before + [""]
    ensures Split(head + b, sep) == before + Split(b, sep)
  {
    if b == "" {
      assert head + b == head;
    } else {
      SplitFrom(head, before, Front(b), sep);
      SplitLast(head, b, sep);
      SplitLast("", b, sep);
      assert "" + b == b && "" + Front(b) == Front(b);
      SplitFromStep(before, Split(Front(b), sep), Last(b), Cuts(sep, Last(b)));
    }
  }

  lemma SplitLast(head: string, b: string, sep: Separator)
    requires b != ""
    ensures var before := Split(head + Front(b), sep);
            Split(head + b, sep) ==
            if Cuts(sep, Last(b)) then before + [""] else Front(before) + [Last(before) + [Last(b)]]
  {
    Reassociate(head, b);
    SplitSnoc(head + Front(b), Last(b), sep);
  }

  lemma SplitAround(a: string, c: char, b: string, sep: Separator)
    requires Cuts(sep, c)
    ensures Split(a + [c] + b, sep) == Split(a, sep) + Split(b, sep)
  {
    SplitSnoc(a, c, sep);
    SplitFrom(a + [c], Split(a, sep), b, sep);
  }

  lemma Associate<T>(xs: seq<T>, ys: seq<T>, zs: seq<T>)
    ensures xs + ys + zs == xs + (ys + zs)
  {}

  lemma TextsOneMore(xs: seq<string>, x: string)
    ensures Texts(xs + [x]) == Texts(xs) + if Strip(x) == "" then [] else [Strip(x)]
  {
    assert Front(xs + [x]) == xs;
  }

  lemma TextsAppendStep(xs: seq<string>, ys: seq<string>, y: string)
    requires Texts(xs + ys) == Texts(xs) + Texts(ys)
    ensures Texts(xs + (ys + [y])) == Texts(xs) + Texts(ys + [y])
  {
    Associate(xs, ys, [y]);
    TextsOneMore(xs + ys, y);
    TextsOneMore(ys, y);
    Associate(Texts(xs), Texts(ys), if Strip(y) == "" then [] else [Strip(y)]);
  }

  lemma {:induction false} TextsAppend(xs: seq<string>, ys: seq<string>)
    ensures Texts(xs + ys) == Texts(xs) + Texts(ys)
  {
    if ys == [] {
      assert xs + ys == xs;
    } else {
      TextsAppend(xs, Front(ys));
      TextsAppendStep(xs, Front(ys), Last(ys));
      assert ys == Front(ys) + [Last(ys)];
    }
  }

  /** Facts are cut at full-width and at ASCII semicolons alike. */
  lemma FactsAroundSemicolon(a: string, b: string)
    ensures SplitFacts(a + "；" + b) == SplitFacts(a) + SplitFacts(b)
    ensures SplitFacts(a + ";" + b) == SplitFacts(a) + SplitFacts(b)
  {
    SplitAround(a, '；', b, Semicolons);
    SplitAround(a, ';', b, Semicolons);
    TextsAppend(Split(a, Semicolons), Split(b, Semicolons));
  }

  /** The stripped line if it is not blank and belongs to no section. */
  function LooseLine(raw: string): seq<string> {
    if Strip(raw) == "" || SectionOf(Strip(raw)).Some? then [] else [Strip(raw)]
  }

  /** The stripped, non-empty lines that belong to no section, in order. */
  function LooseLines(lines: seq<string>): seq<string> {
    if lines == [] then [] else LooseLines(Front(lines)) + LooseLine(Last(lines))
  }

  /** Some line belongs to a section. */
  ghost predicate HasSection(lines: seq<string>) {
    exists i :: 0 <= i < |lines| && SectionOf(Strip(lines[i])).Some?
  }

  lemma HasSectionSnoc(lines: seq<string>)
    requires lines != []
    ensures HasSection(lines) <==> HasSection(Front(lines)) || SectionOf(Strip(Last(lines))).Some?
  {
    if i :| 0 <= i < |lines| && SectionOf(Strip(lines[i])).Some? {
      assert i < |lines| - 1 ==> Front(lines)[i] == lines[i];
    }
    if i :| 0 <= i < |Front(lines)| && SectionOf(Strip(Front(lines)[i])).Some? {
      assert lines[i] == Front(lines)[i];
    }
  }

  /** One line more: a blank one counts for nothing, one of a section is seen, any other one is kept loose. */
  lemma ReadOneLine(st: Reading, raw: string)
    ensures var next, section := ReadLine(st, raw), SectionOf(Strip(raw));
            && next.leftover == st.leftover + LooseLine(raw)
            && next.sawSection == (st.sawSection || section.Some?)
            && (section.None? ==> next.parsed == st.parsed)
  {
    assert st.leftover + [] == st.leftover;
  }

  ghost predicate ReadingIs(st: Reading, lines: seq<string>) {
    && st.leftover == LooseLines(lines)
    && (st.sawSection <==> HasSection(lines))
    && (!st.sawSection ==> st.parsed == NOTHING)
  }

  lemma ReadingStep(st: Reading, lines: seq<string>)
    requires lines != [] && ReadingIs(st, Front(lines))
    ensures ReadingIs(ReadLine(st, Last(lines)), lines)
  {
    HasSectionSnoc(lines);
    ReadOneLine(st, Last(lines));
  }

  lemma {:induction false} ReadingInWords(lines: seq<string>)
    ensures ReadingIs(ReadAll(lines), lines)
  {
    if lines != [] {
      ReadingInWords(Front(lines));
      ReadingStep(ReadAll(Front(lines)), lines);
    }
  }

  /**
   Where a line without a section goes. With no section at all, such lines are the confirmed facts, all of
   them. Beside sections, they follow the confirmed facts that were read, without repeats, and the last six
   stay. The other lists are what their sections say.
   */
  lemma LooseLinesAreConfirmed(text: string)
    requires Strip(text) != ""
    ensures var lines := Split(Strip(text), LineBreaks);
            var s, loose, read := Parsed(text), LooseLines(lines), ReadAll(lines).parsed;
            && s == read.(confirmed := s.confirmed)
            && s.confirmed ==
               (if loose == [] then read.confirmed
                else if !HasSection(lines) then loose
                else LastOf(Unbeaten(Plainly, read.confirmed, loose) + Survivors(Plainly, loose), 6))
            && (!HasSection(lines) ==> s == NOTHING.(confirmed := loose))
  {
    var lines := Split(Strip(text), LineBreaks);
    ReadingInWords(lines);
    LooseIsProper(lines);
    ProperTexts(LooseLines(lines));
    WrittenInWords(Plainly, ReadAll(lines).parsed.confirmed, LooseLines(lines));
  }

  lemma {:induction false} LooseIsProper(lines: seq<string>)
    ensures Proper(LooseLines(lines))
  {
    if lines != [] {
      LooseIsProper(Front(lines));
      LooseLineIsProper(Last(lines));
      ProperAppend(LooseLines(Front(lines)), LooseLine(Last(lines)));
    }
  }

  lemma LooseLineIsProper(raw: string)
    ensures Proper(LooseLine(raw))
  {
    StripGives(raw);
    StripGives(Strip(raw));
    assert Strip(raw) != "" ==> ProperFact(Strip(raw));
  }

  /** What a summary holds for a section: its facts, or the intent alone. */
  function Entry(s: Summary, section: Section): seq<string> {
    match section
    case OrdersSection => s.orders
    case CoursesSection => s.courses
    case IntentSection => if s.intent == "" then [] else [s.intent]
    case ConfirmedSection => s.confirmed
    case PendingSection => s.pending
  }

  lemma FillOther(s: Summary, other: Section, value: string, section: Section)
    requires other != section
    ensures Entry(Fill(s, other, value), section) == Entry(s, section)
  {}

  lemma OtherLine(st: Reading, section: Section, raw: string)
    requires SectionOf(Strip(raw)) != Some(section)
    ensures Entry(ReadLine(st, raw).parsed, section) == Entry(st.parsed, section)
  {
    var line := Strip(raw);
    if line != "" && SectionOf(line).Some? {
      var other := SectionOf(line).value;
      FillOther(st.parsed, other, Value(other, line), section);
    }
  }

  lemma OwnLine(st: Reading, section: Section, line: string)
    requires SectionOf(Strip(line)) == Some(section)
    ensures var value := Value(section, Strip(line));
            Entry(ReadLine(st, line).parsed, section) ==
            if !section.IntentSection? then SplitFacts(value) else if value == "" then [] else [value]
  {}

  /** A section that no line belongs to stays empty. */
  lemma {:induction false} AbsentSectionIsEmpty(lines: seq<string>, section: Section)
    requires forall i :: 0 <= i < |lines| ==> SectionOf(Strip(lines[i])) != Some(section)
    ensures Entry(ReadAll(lines).parsed, section) == []
  {
    if lines != [] {
      AbsentSectionIsEmpty(Front(lines), section);
      OtherLine(ReadAll(Front(lines)), section, Last(lines));
    }
  }

  lemma {:induction false} LaterLinesLeaveIt(head: seq<string>, section: Section, after: seq<string>)
    requires forall i :: 0 <= i < |after| ==> SectionOf(Strip(after[i])) != Some(section)
    ensures Entry(ReadAll(head + after).parsed, section) == Entry(ReadAll(head).parsed, section)
  {
    if after == [] {
      assert head + after == head;
    } else {
      LaterLinesLeaveIt(head, section, Front(after));
      Reassociate(head, after);
      ReadSnoc(head + Front(after), Last(after));
      OtherLine(ReadAll(head + Front(after)), section, Last(after));
    }
  }

  /** Of several lines of one section the last one counts, whatever stands before it and after it. */
  lemma LastSectionLineCounts(before: seq<string>, section: Section, line: string, after: seq<string>)
    requires SectionOf(Strip(line)) == Some(section)
    requires forall i :: 0 <= i < |after| ==> SectionOf(Strip(after[i])) != Some(section)
    ensures var value := Value(section, Strip(line));
            Entry(ReadAll(before + [line] + after).parsed, section) ==
            if !section.IntentSection? then SplitFacts(value) else if value == "" then [] else [value]
  {
    LaterLinesLeaveIt(before + [line], section, after);
    ReadSnoc(before, line);
    OwnLine(ReadAll(before), section, line);
  }
}
