/** Printing a structured summary within a length bound, and reading it back. */
module SummaryText {
  import opened Sequences
  import opened Text
  import opened FactLists
  import opened SessionSummary

  datatype Section = OrdersSection | CoursesSection | IntentSection | ConfirmedSection | PendingSection

  function Key(section: Section): string {
    match section
    case OrdersSection => "订单"
    case CoursesSection => "课程"
    case IntentSection => "意图"
    case ConfirmedSection => "已确认"
    case PendingSection => "未决"
  }

  // ----- Printing

  function Row(section: Section, value: string): string {
    Key(section) + "：" + value
  }

  function FactRow(section: Section, facts: seq<string>): seq<string> {
    if facts == [] then [] else [Row(section, Join(facts, "；"))]
  }

  function IntentRow(intent: string): seq<string> {
    if intent == "" then [] else [Row(IntentSection, intent)]
  }

  function Rows(s: Summary): seq<string> {
    FactRow(OrdersSection, s.orders) + FactRow(CoursesSection, s.courses) + IntentRow(s.intent) +
    FactRow(ConfirmedSection, s.confirmed) + FactRow(PendingSection, s.pending)
  }

  function Lines(s: Summary): string {
    Join(Rows(s), "\n")
  }

  function Limit(maxChars: int): nat {
    if maxChars < 80 then 80 else maxChars
  }

  function Size(s: Summary): nat {
    |s.confirmed| + |s.pending| + |s.orders| + |s.courses|
  }

  /** One oldest fact less: confirmed facts go first, then pending ones, orders and courses. */
  function DropOldest(s: Summary): Summary {
    if |s.confirmed| > 1 then s.(confirmed := s.confirmed[1..])
    else if |s.pending| > 1 then s.(pending := s.pending[1..])
    else if |s.orders| > 1 then s.(orders := s.orders[1..])
    else if |s.courses| > 1 then s.(courses := s.courses[1..])
    else s
  }

  predicate AtMostOneEach(s: Summary) {
    |s.orders| <= 1 && |s.courses| <= 1 && |s.confirmed| <= 1 && |s.pending| <= 1
  }

  /** Drop oldest facts, one at a time, until the lines fit or every list is down to one fact. */
  function Shrink(s: Summary, limit: nat): Summary
    decreases Size(s)
  {
    if |Lines(s)| <= limit || AtMostOneEach(s) then s else Shrink(DropOldest(s), limit)
  }

  function Rendered(s: Summary, maxChars: Option<int>): string {
    match maxChars
    case None => Lines(s)
    case Some(n) =>
      var text := Lines(Shrink(s, Limit(n)));
      if |text| <= Limit(n) then text else text[|text| - Limit(n)..]
  }

  method DropOneFact(s: Summary) returns (left: Summary, dropped: bool)
    ensures left == DropOldest(s) && dropped == !AtMostOneEach(s)
  {
    left, dropped := s, true;
    if |s.confirmed| > 1 {
      left := s.(confirmed := s.confirmed[1..]);
    } else if |s.pending| > 1 {
      left := s.(pending := s.pending[1..]);
    } else if |s.orders| > 1 {
      left := s.(orders := s.orders[1..]);
    } else if |s.courses| > 1 {
      left := s.(courses := s.courses[1..]);
    } else {
      dropped := false;
    }
  }

  method Render(s: Summary, maxChars: Option<int>) returns (text: string)
    ensures text == Rendered(s, maxChars)
  {
    if maxChars.None? {
      return Lines(s);
    }
    var limit := Limit(maxChars.value);
    var left := ShrinkToFit(s, limit);
    text := Lines(left);
    if |text| > limit {
      text := text[|text| - limit..];
    }
  }

  /** Drop facts until the text fits or nothing more can be dropped. */
  method ShrinkToFit(s: Summary, limit: nat) returns (left: Summary)
    ensures left == Shrink(s, limit)
  {
    left := s;
    var fits := |Lines(left)| <= limit;
    ghost var target := Shrink(s, limit);
    while !fits
      invariant fits == (|Lines(left)| <= limit) && Shrink(left, limit) == target
      decreases Size(left)
    {
      ShrinkStep(left, limit);
      var next, dropped := DropOneFact(left);
      if !dropped {
        return;
      }
      left := next;
      fits := |Lines(left)| <= limit;
    }
    ShrinkStep(left, limit);
  }

  lemma ShrinkStep(s: Summary, limit: nat)
    ensures |Lines(s)| <= limit || AtMostOneEach(s) ==> Shrink(s, limit) == s
    ensures |Lines(s)| > limit && !AtMostOneEach(s) ==>
              Shrink(s, limit) == Shrink(DropOldest(s), limit) && Size(DropOldest(s)) < Size(s)
  {}

  /** A printed summary never exceeds the bound. */
  lemma RenderIsBounded(s: Summary, n: int)
    ensures |Rendered(s, Some(n))| <= Limit(n)
  {}

  // ----- What shrinking leaves

  /** `b` is `a` with some of its oldest facts gone, the newest one included. */
  ghost predicate KeepsNewest(a: seq<string>, b: seq<string>) {
    && |b| <= |a|
    && b == a[|a| - |b|..]
    && (a != [] ==> b != [])
  }

  ghost predicate CutTo(s: Summary, t: Summary) {
    && KeepsNewest(s.orders, t.orders) && KeepsNewest(s.courses, t.courses)
    && KeepsNewest(s.confirmed, t.confirmed) && KeepsNewest(s.pending, t.pending)
    && t.intent == s.intent
  }

  lemma KeepsNewestTransitive(a: seq<string>, b: seq<string>, c: seq<string>)
    requires KeepsNewest(a, b) && KeepsNewest(b, c)
    ensures KeepsNewest(a, c)
  {
    assert b[|b| - |c|..] == a[|a| - |c|..];
  }

  lemma CutToTransitive(s: Summary, t: Summary, u: Summary)
    requires CutTo(s, t) && CutTo(t, u)
    ensures CutTo(s, u)
  {
    KeepsNewestTransitive(s.orders, t.orders, u.orders);
    KeepsNewestTransitive(s.courses, t.courses, u.courses);
    KeepsNewestTransitive(s.confirmed, t.confirmed, u.confirmed);
    KeepsNewestTransitive(s.pending, t.pending, u.pending);
  }

  lemma KeepsNewestOne(a: seq<string>)
    ensures KeepsNewest(a, a) && (|a| > 1 ==> KeepsNewest(a, a[1..]))
  {}

  lemma DropIsCut(s: Summary)
    ensures CutTo(s, DropOldest(s))
  {
    KeepsNewestOne(s.orders);
    KeepsNewestOne(s.courses);
    KeepsNewestOne(s.confirmed);
    KeepsNewestOne(s.pending);
  }

  /** Shrinking cuts each list to a suffix with its newest fact, and nothing at all when everything fits. */
  lemma {:induction false} ShrinkKeepsNewest(s: Summary, limit: nat)
    ensures CutTo(s, Shrink(s, limit))
    ensures |Lines(s)| <= limit ==> Shrink(s, limit) == s
    ensures |Lines(Shrink(s, limit))| > limit ==> AtMostOneEach(Shrink(s, limit))
    decreases Size(s)
  {
    if |Lines(s)| > limit && !AtMostOneEach(s) {
      var next := DropOldest(s);
      ShrinkStep(s, limit);
      ShrinkKeepsNewest(next, limit);
      DropIsCut(s);
      CutToTransitive(s, next, Shrink(next, limit));
    } else {
      KeepsNewestOne(s.orders);
      KeepsNewestOne(s.courses);
      KeepsNewestOne(s.confirmed);
      KeepsNewestOne(s.pending);
    }
  }

  /** The summary cut down to the newest fact of each list. */
  function NewestOnly(s: Summary): Summary {
    s.(orders := Newest(s.orders, 1), courses := Newest(s.courses, 1),
       confirmed := Newest(s.confirmed, 1), pending := Newest(s.pending, 1))
  }

  /** Length of a row and its line break. */
  function RowCost(section: Section, facts: seq<string>): nat {
    if facts == [] then 0 else |Key(section)| + 2 + |Join(facts, "；")|
  }

  function IntentCost(intent: string): nat {
    if intent == "" then 0 else |Key(IntentSection)| + 2 + |intent|
  }

  function Cost(s: Summary): nat {
    RowCost(OrdersSection, s.orders) + RowCost(CoursesSection, s.courses) + IntentCost(s.intent) +
    RowCost(ConfirmedSection, s.confirmed) + RowCost(PendingSection, s.pending)
  }

  function Total(rows: seq<string>): nat {
    if rows == [] then 0 else Total(Front(rows)) + |Last(rows)| + 1
  }

  lemma {:induction false} JoinLength(rows: seq<string>)
    requires rows != []
    ensures |Join(rows, "\n")| + 1 == Total(rows)
  {
    if |rows| > 1 {
      JoinLength(Front(rows));
    } else {
      assert Front(rows) == [];
    }
  }

  lemma TotalFactRow(rows: seq<string>, section: Section, facts: seq<string>)
    ensures Total(rows + FactRow(section, facts)) == Total(rows) + RowCost(section, facts)
  {
    var more := FactRow(section, facts);
    if facts == [] {
      assert rows + more == rows;
    } else {
      assert Front(rows + more) == rows;
    }
  }

  lemma TotalIntentRow(rows: seq<string>, intent: string)
    ensures Total(rows + IntentRow(intent)) == Total(rows) + IntentCost(intent)
  {
    if intent == "" {
      assert rows + IntentRow(intent) == rows;
    } else {
      assert Front(rows + IntentRow(intent)) == rows;
    }
  }

  /** The printed length, row by row. */
  lemma LinesLength(s: Summary)
    ensures |Lines(s)| == if Cost(s) == 0 then 0 else Cost(s) - 1
  {
    var one := FactRow(OrdersSection, s.orders);
    var two := one + FactRow(CoursesSection, s.courses);
    var three := two + IntentRow(s.intent);
    var four := three + FactRow(ConfirmedSection, s.confirmed);
    assert [] + one == one && Rows(s) == four + FactRow(PendingSection, s.pending);
    TotalFactRow([], OrdersSection, s.orders);
    TotalFactRow(one, CoursesSection, s.courses);
    TotalIntentRow(two, s.intent);
    TotalFactRow(three, ConfirmedSection, s.confirmed);
    TotalFactRow(four, PendingSection, s.pending);
    if Rows(s) != [] {
      JoinLength(Rows(s));
    }
  }

  lemma {:induction false} JoinAtLeastLast(items: seq<string>, sep: string)
    requires items != []
    ensures |Join(items, sep)| >= |Last(items)|
  {}

  lemma RowCostNewest(section: Section, facts: seq<string>)
    ensures RowCost(section, Newest(facts, 1)) <= RowCost(section, facts)
  {
    if |facts| > 1 {
      assert Newest(facts, 1) == [Last(facts)];
      JoinAtLeastLast(facts, "；");
    }
  }

  lemma RowCostKeepsNewest(section: Section, facts: seq<string>, left: seq<string>)
    requires KeepsNewest(facts, left)
    ensures RowCost(section, Newest(facts, 1)) <= RowCost(section, left)
  {
    RowCostNewest(section, left);
    assert Newest(left, 1) == Newest(facts, 1);
  }

  lemma CutCosts(s: Summary, t: Summary)
    requires CutTo(s, t)
    ensures Cost(NewestOnly(s)) <= Cost(t)
  {
    RowCostKeepsNewest(OrdersSection, s.orders, t.orders);
    RowCostKeepsNewest(CoursesSection, s.courses, t.courses);
    RowCostKeepsNewest(ConfirmedSection, s.confirmed, t.confirmed);
    RowCostKeepsNewest(PendingSection, s.pending, t.pending);
  }

  lemma CutToOneIsNewest(s: Summary, t: Summary)
    requires CutTo(s, t) && AtMostOneEach(t)
    ensures t == NewestOnly(s)
  {
    assert t.orders == Newest(s.orders, 1);
    assert t.courses == Newest(s.courses, 1);
    assert t.confirmed == Newest(s.confirmed, 1);
    assert t.pending == Newest(s.pending, 1);
  }

  lemma NewestIsShortest(s: Summary, t: Summary)
    requires CutTo(s, t)
    ensures |Lines(NewestOnly(s))| <= |Lines(t)|
  {
    LinesLength(t);
    LinesLength(NewestOnly(s));
    CutCosts(s, t);
  }

  lemma CutFitsIff(s: Summary, t: Summary, limit: nat)
    requires CutTo(s, t)
    requires |Lines(t)| > limit ==> AtMostOneEach(t)
    ensures |Lines(t)| <= limit <==> |Lines(NewestOnly(s))| <= limit
  {
    if |Lines(t)| > limit {
      CutToOneIsNewest(s, t);
    } else {
      NewestIsShortest(s, t);
    }
  }

  /** Shrinking succeeds exactly when the newest fact of each list fits: otherwise the raw tail is cut. */
  lemma RawTailIff(s: Summary, limit: nat)
    ensures |Lines(Shrink(s, limit))| <= limit <==> |Lines(NewestOnly(s))| <= limit
  {
    ShrinkKeepsNewest(s, limit);
    CutFitsIff(s, Shrink(s, limit), limit);
  }

  // ----- Reading

  predicate StartsSection(section: Section, line: string) {
    var key := Key(section);
    key <= line && |line| > |key| && (line[|key|] == '：' || line[|key|] == ':')
  }

  function Value(section: Section, line: string): string
    requires StartsSection(section, line)
  {
    Strip(line[|Key(section)| + 1..])
  }

  function SectionOf(line: string): (section: Option<Section>)
    ensures section.Some? ==> StartsSection(section.value, line)
  {
    if StartsSection(OrdersSection, line) then Some(OrdersSection)
    else if StartsSection(CoursesSection, line) then Some(CoursesSection)
    else if StartsSection(IntentSection, line) then Some(IntentSection)
    else if StartsSection(ConfirmedSection, line) then Some(ConfirmedSection)
    else if StartsSection(PendingSection, line) then Some(PendingSection)
    else None
  }

  function SplitFacts(raw: string): seq<string> {
    Texts(Split(raw, Semicolons))
  }

  datatype Reading = Reading(parsed: Summary, leftover: seq<string>, sawSection: bool)

  function Fill(s: Summary, section: Section, value: string): Summary {
    match section
    case OrdersSection => s.(orders := SplitFacts(value))
    case CoursesSection => s.(courses := SplitFacts(value))
    case IntentSection => s.(intent := value)
    case ConfirmedSection => s.(confirmed := SplitFacts(value))
    case PendingSection => s.(pending := SplitFacts(value))
  }

  function ReadLine(st: Reading, raw: string): Reading {
    var line := Strip(raw);
    if line == "" then st
    else
      match SectionOf(line)
      case None => st.(leftover := st.leftover + [line])
      case Some(section) => st.(parsed := Fill(st.parsed, section, Value(section, line)), sawSection := true)
  }

  function ReadAll(lines: seq<string>): Reading {
    if lines == [] then Reading(NOTHING, [], false) else ReadLine(ReadAll(Front(lines)), Last(lines))
  }

  function Settle(st: Reading): Summary {
    if st.leftover == [] then st.parsed
    else if !st.sawSection then st.parsed.(confirmed := st.leftover)
    else st.parsed.(confirmed := Newest(WriteAll(Plainly, st.parsed.confirmed, Texts(st.leftover)), CONFIRMED_CAP))
  }

  function Parsed(text: string): Summary {
    if Strip(text) == "" then NOTHING else Settle(ReadAll(Split(Strip(text), LineBreaks)))
  }

  method Parse(text: string) returns (s: Summary)
    ensures s == Parsed(text)
  {
    var raw := Strip(text);
    if raw == "" {
      return NOTHING;
    }
    var lines := Split(raw, LineBreaks);
    var st := Reading(NOTHING, [], false);
    for i := 0 to |lines|
      invariant st == ReadAll(lines[..i])
    {
      assert Front(lines[..i + 1]) == lines[..i];
      var line := Strip(lines[i]);
      if line != "" {
        var section := SectionOf(line);
        if section.None? {
          st := st.(leftover := st.leftover + [line]);
        } else {
          st := st.(parsed := Fill(st.parsed, section.value, Value(section.value, line)), sawSection := true);
        }
      }
    }
    assert lines[..|lines|] == lines;
    s := st.parsed;
    if st.leftover != [] && !st.sawSection {
      s := s.(confirmed := st.leftover);
    } else if st.leftover != [] {
      var confirmed := PrependUnique(s.confirmed, st.leftover, CONFIRMED_CAP);
      s := s.(confirmed := confirmed);
    }
  }

  // ----- Round trips

  /** Text that survives on one line: stripped, without line breaks. */
  ghost predicate OneLine(x: string) {
    Strip(x) == x && Free(x, LineBreaks)
  }

  ghost predicate OneLineFacts(xs: seq<string>) {
    forall i :: 0 <= i < |xs| ==> xs[i] != "" && OneLine(xs[i])
  }

  ghost predicate FreeOfSemicolons(xs: seq<string>) {
    forall i :: 0 <= i < |xs| ==> Free(xs[i], Semicolons)
  }

  /** What reading always returns: stripped one-line facts. */
  ghost predicate Readable(s: Summary) {
    && OneLineFacts(s.orders) && OneLineFacts(s.courses) && OneLineFacts(s.confirmed) && OneLineFacts(s.pending)
    && OneLine(s.intent)
  }

  /** Readable, and no fact contains the separator of facts. */
  ghost predicate Clean(s: Summary) {
    && Readable(s)
    && FreeOfSemicolons(s.orders) && FreeOfSemicolons(s.courses)
    && FreeOfSemicolons(s.confirmed) && FreeOfSemicolons(s.pending)
  }

  /** The facts that reading finds in the printed list `facts`. */
  function Resplit(facts: seq<string>): seq<string> {
    if facts == [] then [] else SplitFacts(Join(facts, "；"))
  }

  lemma TrimOfOneLine(x: string)
    requires OneLine(x)
    ensures Trim(x)
  {
    StripGives(x);
  }

  lemma JoinedFacts(facts: seq<string>)
    requires facts != [] && OneLineFacts(facts)
    ensures var v := Join(facts, "；"); v != "" && Strip(v) == v && Free(v, LineBreaks)
  {
    var v := Join(facts, "；");
    JoinEnds(facts, "；");
    JoinFree(facts, "；", LineBreaks);
    TrimOfOneLine(facts[0]);
    TrimOfOneLine(Last(facts));
    StripGives(v);
  }

  lemma KeyIsPlain(section: Section)
    ensures Key(section) != "" && Free(Key(section), LineBreaks) && !IsSpace(Key(section)[0])
  {}

  /** A printed row, read on its own: its section and its value. */
  lemma RowReads(section: Section, value: string)
    requires value != "" && OneLine(value)
    ensures var row := Row(section, value);
            && Strip(row) == row && row != "" && Free(row, LineBreaks) && !IsSpace(row[0]) && !IsSpace(Last(row))
            && SectionOf(row) == Some(section) && Value(section, row) == value
  {
    var row := Row(section, value);
    KeyIsPlain(section);
    TrimOfOneLine(value);
    assert row[0] == Key(section)[0] && Last(row) == Last(value);
    StripGives(row);
    assert row[|Key(section)| + 1..] == value;
    assert row[..|Key(section)|] == Key(section) && row[|Key(section)|] == '：';
    SectionIsUnique(section, row);
  }

  lemma SectionIsUnique(section: Section, row: string)
    requires StartsSection(section, row)
    ensures SectionOf(row) == Some(section)
  {
    assert row[0] == Key(section)[0] && row[1] == Key(section)[1];
  }

  lemma ReadSnoc(rows: seq<string>, row: string)
    ensures ReadAll(rows + [row]) == ReadLine(ReadAll(rows), row)
  {
    assert Front(rows + [row]) == rows;
  }

  /** Reading the optional row of one fact list. */
  lemma ReadFactRow(rows: seq<string>, section: Section, facts: seq<string>)
    requires OneLineFacts(facts) && !section.IntentSection?
    ensures ReadAll(rows + FactRow(section, facts)) ==
            if facts == [] then ReadAll(rows)
            else Reading(Fill(ReadAll(rows).parsed, section, Join(facts, "；")), ReadAll(rows).leftover, true)
  {
    if facts == [] {
      assert rows + FactRow(section, facts) == rows;
    } else {
      JoinedFacts(facts);
      RowReads(section, Join(facts, "；"));
      ReadSnoc(rows, Row(section, Join(facts, "；")));
    }
  }

  lemma ReadIntentRow(rows: seq<string>, intent: string)
    requires OneLine(intent)
    ensures ReadAll(rows + IntentRow(intent)) ==
            if intent == "" then ReadAll(rows)
            else Reading(ReadAll(rows).parsed.(intent := intent), ReadAll(rows).leftover, true)
  {
    if intent == "" {
      assert rows + IntentRow(intent) == rows;
    } else {
      RowReads(IntentSection, intent);
      ReadSnoc(rows, Row(IntentSection, intent));
    }
  }

  function Reread(s: Summary): Summary {
    Summary(Resplit(s.orders), Resplit(s.courses), s.intent, Resplit(s.confirmed), Resplit(s.pending))
  }

  lemma ReadRows(s: Summary)
    requires Readable(s)
    ensures ReadAll(Rows(s)).parsed == Reread(s) && ReadAll(Rows(s)).leftover == []
  {
    var one := FactRow(OrdersSection, s.orders);
    var two := one + FactRow(CoursesSection, s.courses);
    var three := two + IntentRow(s.intent);
    var four := three + FactRow(ConfirmedSection, s.confirmed);
    assert [] + one == one && Rows(s) == four + FactRow(PendingSection, s.pending);
    ReadFactRow([], OrdersSection, s.orders);
    ReadFactRow(one, CoursesSection, s.courses);
    ReadIntentRow(two, s.intent);
    ReadFactRow(three, ConfirmedSection, s.confirmed);
    ReadFactRow(four, PendingSection, s.pending);
  }

  /** Properties every printed row has. */
  ghost predicate PlainRow(row: string) {
    row != "" && Free(row, LineBreaks) && !IsSpace(row[0]) && !IsSpace(Last(row))
  }

  lemma RowsArePlain(s: Summary)
    requires Readable(s)
    ensures forall i :: 0 <= i < |Rows(s)| ==> PlainRow(Rows(s)[i])
  {
    FactRowIsPlain(OrdersSection, s.orders);
    FactRowIsPlain(CoursesSection, s.courses);
    FactRowIsPlain(ConfirmedSection, s.confirmed);
    FactRowIsPlain(PendingSection, s.pending);
    if s.intent != "" {
      RowReads(IntentSection, s.intent);
    }
  }

  lemma FactRowIsPlain(section: Section, facts: seq<string>)
    requires OneLineFacts(facts)
    ensures forall i :: 0 <= i < |FactRow(section, facts)| ==> PlainRow(FactRow(section, facts)[i])
  {
    if facts != [] {
      JoinedFacts(facts);
      RowReads(section, Join(facts, "；"));
    }
  }

  /** The printed rows are what cutting the printed text into lines gives back. */
  lemma LinesSplit(rows: seq<string>)
    requires rows != [] && forall i :: 0 <= i < |rows| ==> PlainRow(rows[i])
    ensures var text := Join(rows, "\n"); text != "" && Strip(text) == text && Split(text, LineBreaks) == rows
  {
    var text := Join(rows, "\n");
    JoinEnds(rows, "\n");
    assert PlainRow(rows[0]) && PlainRow(Last(rows));
    StripGives(text);
    assert ['\n'] == "\n";
    SplitJoin(rows, '\n', LineBreaks);
  }

  /** Reading back a printed readable summary re-splits every list and changes nothing else. */
  lemma ParseOfLines(s: Summary)
    requires Readable(s)
    ensures Parsed(Lines(s)) == Reread(s)
  {
    ReadRows(s);
    if Rows(s) == [] {
      StripGives("");
    } else {
      RowsArePlain(s);
      LinesSplit(Rows(s));
    }
  }

  lemma CleanResplit(facts: seq<string>)
    requires OneLineFacts(facts)
    ensures FreeOfSemicolons(facts) ==> Resplit(facts) == facts
    ensures FreeOfSemicolons(Resplit(facts))
  {
    if facts != [] {
      var v := Join(facts, "；");
      SplitPiecesFree(v, Semicolons);
      TextsComeFrom(Split(v, Semicolons), Semicolons);
      if FreeOfSemicolons(facts) {
        SplitJoin(facts, '；', Semicolons);
        assert ['；'] == "；";
        assert Proper(facts) by { forall i | 0 <= i < |facts| ensures ProperFact(facts[i]) {} }
        ProperTexts(facts);
      }
    }
  }

  lemma {:induction false} TextsComeFrom(items: seq<string>, sep: Separator)
    requires forall i :: 0 <= i < |items| ==> Free(items[i], sep)
    ensures forall i :: 0 <= i < |Texts(items)| ==> Free(Texts(items)[i], sep)
  {
    if items != [] {
      TextsComeFrom(Front(items), sep);
      StripGives(Last(items));
      FreeByMembers(Last(items), Strip(Last(items)), sep);
    }
  }

  lemma FreeByMembers(whole: string, part: string, sep: Separator)
    requires Free(whole, sep) && forall c :: c in part ==> c in whole
    ensures Free(part, sep)
  {
    forall i | 0 <= i < |part| ensures !Cuts(sep, part[i]) {
      assert part[i] in part;
    }
  }

  lemma StripIsOneLine(whole: string)
    requires Free(whole, LineBreaks)
    ensures OneLine(Strip(whole))
  {
    StripGives(whole);
    StripGives(Strip(whole));
    FreeByMembers(whole, Strip(whole), LineBreaks);
  }

  lemma {:induction false} TextsAreOneLine(items: seq<string>)
    requires forall i :: 0 <= i < |items| ==> Free(items[i], LineBreaks)
    ensures OneLineFacts(Texts(items))
  {
    if items != [] {
      TextsAreOneLine(Front(items));
      StripIsOneLine(Last(items));
    }
  }

  lemma SplitFactsAreOneLine(value: string)
    requires Free(value, LineBreaks)
    ensures OneLineFacts(SplitFacts(value))
  {
    SplitPiecesFree(value, Semicolons);
    var pieces := Split(value, Semicolons);
    forall i | 0 <= i < |pieces| ensures Free(pieces[i], LineBreaks) {
      assert pieces[i] in pieces;
      FreeByMembers(value, pieces[i], LineBreaks);
    }
    TextsAreOneLine(pieces);
  }

  ghost predicate ReadableSoFar(st: Reading) {
    Readable(st.parsed) && OneLineFacts(st.leftover)
  }

  lemma FillIsReadable(s: Summary, section: Section, value: string)
    requires Readable(s) && OneLine(value)
    ensures Readable(Fill(s, section, value))
  {
    SplitFactsAreOneLine(value);
  }

  lemma ValueIsOneLine(section: Section, line: string)
    requires StartsSection(section, line) && Free(line, LineBreaks)
    ensures OneLine(Value(section, line))
  {
    StripIsOneLine(line[|Key(section)| + 1..]);
  }

  lemma ReadLineIsReadable(st: Reading, raw: string)
    requires ReadableSoFar(st) && Free(raw, LineBreaks)
    ensures ReadableSoFar(ReadLine(st, raw))
  {
    var line := Strip(raw);
    StripIsOneLine(raw);
    if line != "" && SectionOf(line).Some? {
      var section := SectionOf(line).value;
      ValueIsOneLine(section, line);
      FillIsReadable(st.parsed, section, Value(section, line));
    }
  }

  lemma {:induction false} ReadAllIsReadable(lines: seq<string>)
    requires forall i :: 0 <= i < |lines| ==> Free(lines[i], LineBreaks)
    ensures ReadableSoFar(ReadAll(lines))
  {
    if lines == [] {
      StripGives("");
    } else {
      ReadAllIsReadable(Front(lines));
      ReadLineIsReadable(ReadAll(Front(lines)), Last(lines));
    }
  }

  lemma WrittenAreOneLine(xs: seq<string>, items: seq<string>, cap: nat)
    requires OneLineFacts(xs) && OneLineFacts(items)
    ensures OneLineFacts(Newest(WriteAll(Plainly, xs, items), cap))
  {
    WrittenMembers(Plainly, xs, items);
    var all := WriteAll(Plainly, xs, items);
    forall i | 0 <= i < |all| ensures all[i] != "" && OneLine(all[i]) {
      assert all[i] in all;
    }
  }

  lemma {:induction false} WrittenMembers(key: Keying, xs: seq<string>, items: seq<string>)
    ensures forall x :: x in WriteAll(key, xs, items) ==> x in xs || x in items
  {
    if items != [] {
      WrittenMembers(key, xs, Front(items));
      MinusFacts(key, WriteAll(key, xs, Front(items)), {SlotOf(key, Last(items))});
    }
  }

  /** Whatever the text, reading it yields stripped one-line facts. */
  lemma ParsedIsReadable(text: string)
    ensures Readable(Parsed(text))
  {
    StripGives("");
    var lines := Split(Strip(text), LineBreaks);
    SplitPiecesFree(Strip(text), LineBreaks);
    assert forall i :: 0 <= i < |lines| ==> lines[i] in lines;
    ReadAllIsReadable(lines);
    var st := ReadAll(lines);
    OneLineTexts(st.leftover);
    WrittenAreOneLine(st.parsed.confirmed, st.leftover, CONFIRMED_CAP);
  }

  lemma OneLineTexts(xs: seq<string>)
    requires OneLineFacts(xs)
    ensures Texts(xs) == xs
  {
    assert Proper(xs) by { forall i | 0 <= i < |xs| ensures ProperFact(xs[i]) {} }
    ProperTexts(xs);
  }

  /** A summary survives printing and reading exactly when its facts are stripped single lines without semicolons. */
  lemma RoundTripIffClean(s: Summary)
    ensures Parsed(Lines(s)) == s <==> Clean(s)
  {
    if Clean(s) {
      ParseOfLines(s);
      CleanResplit(s.orders);
      CleanResplit(s.courses);
      CleanResplit(s.confirmed);
      CleanResplit(s.pending);
    } else if Parsed(Lines(s)) == s {
      ParsedIsReadable(Lines(s));
      ParseOfLines(s);
      CleanResplit(s.orders);
      CleanResplit(s.courses);
      CleanResplit(s.confirmed);
      CleanResplit(s.pending);
      assert false;
    }
  }

  lemma CutKeepsClean(s: Summary, t: Summary)
    requires Clean(s) && CutTo(s, t)
    ensures Clean(t)
  {
    SuffixIsClean(s.orders, t.orders);
    SuffixIsClean(s.courses, t.courses);
    SuffixIsClean(s.confirmed, t.confirmed);
    SuffixIsClean(s.pending, t.pending);
  }

  lemma SuffixIsClean(facts: seq<string>, left: seq<string>)
    requires OneLineFacts(facts) && FreeOfSemicolons(facts) && KeepsNewest(facts, left)
    ensures OneLineFacts(left) && FreeOfSemicolons(left)
  {
    forall i | 0 <= i < |left| ensures left[i] == facts[|facts| - |left| + i] {}
  }

  /**
   Bounded printing, then reading: unless even the newest facts do not fit, a clean summary comes back with
   each list cut to a suffix that keeps its newest fact, and comes back whole when nothing had to be cut.
   */
  lemma BoundedRoundTrip(s: Summary, n: int)
    requires Clean(s) && |Lines(NewestOnly(s))| <= Limit(n)
    ensures CutTo(s, Parsed(Rendered(s, Some(n))))
    ensures |Lines(s)| <= Limit(n) ==> Parsed(Rendered(s, Some(n))) == s
  {
    RawTailIff(s, Limit(n));
    ShrinkKeepsNewest(s, Limit(n));
    CutKeepsClean(s, Shrink(s, Limit(n)));
    RoundTripIffClean(Shrink(s, Limit(n)));
  }

  /**
   The facts the extractor builds for an order with two constraints hold a separator, so they do not
   survive: this one comes back as two facts.
   */
  lemma OrderWithTwoConstraintsIsSplit()
    ensures var order := "20251114001 用户要退款；在追物流";
            Parsed(Lines(NOTHING.(orders := [order]))) != NOTHING.(orders := [order])
  {
    var order := "20251114001 用户要退款；在追物流";
    assert order[17] == '；';
    RoundTripIffClean(NOTHING.(orders := [order]));
  }
}
