/** Exactly when the byte budget holds for every backlog: a block of open changes can fill its last byte. */
module InjectionExact {
  import opened Common
  import opened Frontmatter
  import opened Injection
  import opened InjectionBudget

  // ---------- texts of a known size ----------

  function Pad(n: nat): (s: string)
    ensures |s| == n && forall i | 0 <= i < n :: s[i] == 'x'
  {
    seq(n, i => 'x')
  }

  lemma {:induction false} AsciiBytes(s: string)
    requires forall i | 0 <= i < |s| :: s[i] < '\U{80}'
    ensures Bytes(s) == |s|
  {
    if s != "" {
      AsciiBytes(s[..|s| - 1]);
    }
  }

  function TaskLine(text: string): string {
    "- [ ] 1 " + text
  }

  lemma TaskBytes(n: nat)
    ensures Bytes(TaskLine(Pad(n))) == 8 + n == |TaskLine(Pad(n))|
  {
    var s := TaskLine(Pad(n));
    assert s[..8] == "- [ ] 1 " && s[8..] == Pad(n);
    AsciiBytes(s);
  }

  // ---------- a backlog that fills the block ----------

  const LONG := TaskLine(Pad(312))

  function Repeated(n: nat): (r: seq<Task>)
    ensures |r| == n && forall i | 0 <= i < n :: r[i] == Task("1", Pad(312))
  {
    seq(n, i => Task("1", Pad(312)))
  }

  // One current change: two tasks of chosen length and a hundred that fill a line each.
  function Filling(a: nat, b: nat): Backlog {
    Backlog("a", [Change("a", true, [Task("1", Pad(a)), Task("1", Pad(b))] + Repeated(100), 0, "")], "")
  }

  const OPENING := "Change atual (comandos sem --change): a."

  function Title(): string {
    "### " + "ATUAL" + " — " + "a" + " (" + Decimal(102) + " aberta(s), " + Decimal(0) + " concluída(s))"
  }

  function Head(a: nat, b: nat): seq<string> {
    [Open(TAG), OPENING, Title(), TaskLine(Pad(a)), TaskLine(Pad(b))]
  }

  function LongLines(n: nat): (r: seq<string>)
    ensures |r| == n && forall i | 0 <= i < n :: r[i] == LONG
  {
    seq(n, i => LONG)
  }

  lemma {:induction false} TasksAre(tasks: seq<Task>)
    requires forall t | t in tasks :: t.id == "1"
    ensures TaskLines(tasks) == seq(|tasks|, i requires 0 <= i < |tasks| => TaskLine(tasks[i].text))
  {
    if tasks != [] {
      var n := |tasks| - 1;
      TasksAre(tasks[..n]);
      assert "- [ ] " + "1" + " " == "- [ ] 1 ";
    }
  }

  lemma FillingTasks(a: nat, b: nat)
    ensures TaskLines(Filling(a, b).changes[0].openTasks) == [TaskLine(Pad(a)), TaskLine(Pad(b))] + LongLines(100)
  {
    TasksAre(Filling(a, b).changes[0].openTasks);
    hide TaskLine;
  }

  lemma TitleIs(a: nat, b: nat)
    ensures ChangeLines(Filling(a, b).changes[0]) == [Title(), TaskLine(Pad(a)), TaskLine(Pad(b))] + LongLines(100)
  {
    FillingTasks(a, b);
    hide Decimal, TaskLine, TaskLines;
    assert |Filling(a, b).changes[0].openTasks| == 102;
  }

  lemma FillingLines(a: nat, b: nat, currentOnly: bool)
    ensures BlockLines(Filling(a, b), TAG, currentOnly) == Head(a, b) + LongLines(100) + [HINT, FOOTER, Close(TAG)]
  {
    TitleIs(a, b);
    var back := Filling(a, b);
    var c := back.changes[0];
    assert [c][..0] == [];
    assert Visible(back.changes, currentOnly) == [c];
    assert AllChangeLines([c]) == ChangeLines(c);
    assert "Change atual (comandos sem --change): " + "a" + "." == OPENING;
    hide Open, Close, ChangeLines, TaskLine, Visible, AllChangeLines;
    assert HeadLines(back) == [OPENING];
    assert TailLines(back, 0) == [HINT, FOOTER];
  }

  // ---------- its size ----------

  lemma {:induction false} TotalLong(n: nat)
    ensures Total(LongLines(n)) == 320 * n
  {
    TaskBytes(312);
    hide Bytes, TaskLine, Pad;
    if n > 0 {
      assert LongLines(n)[..n - 1] == LongLines(n - 1);
      TotalLong(n - 1);
    }
  }

  lemma HeadShort(a: nat, b: nat)
    requires a <= 312 && b <= 312
    ensures forall i | 0 <= i < 5 :: |Head(a, b)[i]| <= LINE_CHARS
    ensures |Title()| <= 48 && |OPENING| == 40 && |OMITTED| == 53
  {
    TaskBytes(a);
    TaskBytes(b);
    TagIsShort();
    TitleShort();
    hide TaskLine, Bytes, Open, Title;
  }

  lemma TitleShort()
    ensures |Title()| <= 48
  {
    assert |Decimal(102)| == 3 by {
      assert Decimal(102) == Decimal(10) + Decimal(2) && Decimal(10) == Decimal(1) + Decimal(0);
    }
    assert |Decimal(0)| == 1;
    hide Decimal;
  }

  lemma BoundedFilling(a: nat, b: nat, currentOnly: bool)
    requires a <= 312 && b <= 312
    ensures var bounded := BoundLines(BlockLines(Filling(a, b), TAG, currentOnly), LINE_CHARS);
            |bounded| == 108 && bounded[..5] == Head(a, b) && bounded[5..105] == LongLines(100)
  {
    FillingLines(a, b, currentOnly);
    HeadShort(a, b);
    TaskBytes(312);
    var lines := BlockLines(Filling(a, b), TAG, currentOnly);
    hide Head, BlockLines, TaskLine, Bytes, Close;
    HeadSize(a, b);
    var bounded := BoundLines(lines, LINE_CHARS);
    assert forall i | 0 <= i < 105 :: lines[i] == if i < 5 then Head(a, b)[i] else LONG;
    hide BlockLines;
    assert forall i | 0 <= i < 105 :: bounded[i] == lines[i];
  }

  lemma HeadSize(a: nat, b: nat)
    ensures |Head(a, b)| == 5
  {
  }

  lemma LongOverflows(bounded: seq<string>)
    requires |bounded| == 108 && bounded[5..105] == LongLines(100)
    ensures Bytes(Join(bounded)) > TOTAL_BYTES
  {
    assert TOTAL_BYTES == 24576;
    hide *;
    JoinBytes(bounded);
    TotalLong(100);
    TotalThree(bounded[..5], bounded[5..105], bounded[105..]);
    assert bounded == bounded[..5] + bounded[5..105] + bounded[105..];
  }

  lemma BlockIs(a: nat, b: nat, currentOnly: bool, maxBytes: Option<nat>)
    ensures Block(Filling(a, b), currentOnly, maxBytes)
            == Capped(BlockLines(Filling(a, b), TAG, currentOnly), TAG, maxBytes, LINE_CHARS)
  {
    hide BlockLines, Capped;
  }

  lemma Overflows(a: nat, b: nat, currentOnly: bool)
    requires a <= 312 && b <= 312
    ensures Bytes(Block(Filling(a, b), currentOnly, None)) > TOTAL_BYTES
    ensures Bytes(Join(BoundLines(BlockLines(Filling(a, b), TAG, currentOnly), LINE_CHARS))) > TOTAL_BYTES
  {
    BoundedFilling(a, b, currentOnly);
    BlockIs(a, b, currentOnly, None);
    hide Filling, Block, Bytes, Join, BlockLines, LongLines, BoundLine, FitCount, BodyLines, Closed, Head;
    LongOverflows(BoundLines(BlockLines(Filling(a, b), TAG, currentOnly), LINE_CHARS));
  }

  // What the block costs apart from the two chosen lengths.
  function Frame(): nat {
    Bytes(Open(TAG)) + Bytes(OPENING) + Bytes(Title()) + 16 + Bytes(OMITTED) + Bytes(Close(TAG)) + 6
  }

  lemma FrameFits()
    ensures Frame() <= LEAST_BYTES
  {
    TagIsShort();
    HeadShort(0, 0);
    OpeningAscii();
    BytesBound(Title());
    BytesBound(OMITTED);
    hide Bytes, Open, Close, Title;
  }

  lemma OpeningAscii()
    ensures Bytes(OPENING) == 40 && Bytes(Open(TAG)) == 14 && Bytes(Close(TAG)) == 15
  {
    assert Open(TAG) == "<open_changes>" && Close(TAG) == "</open_changes>";
    AsciiBytes(OPENING);
    AsciiBytes(Open(TAG));
    AsciiBytes(Close(TAG));
  }

  lemma TotalSeven(a: string, b: string, c: string, d: string, e: string, f: string, g: string)
    ensures Total([a, b, c, d, e, f, g])
            == Bytes(a) + Bytes(b) + Bytes(c) + Bytes(d) + Bytes(e) + Bytes(f) + Bytes(g)
  {
    hide Bytes;
    TotalThree([a, b], [c, d], [e, f, g]);
    assert [a, b] + [c, d] + [e, f, g] == [a, b, c, d, e, f, g];
    TotalTwo(a, b);
    TotalTwo(c, d);
    TotalTwo(e, f);
    assert [e, f, g][..2] == [e, f];
  }

  lemma TotalTwo(a: string, b: string)
    ensures Total([a, b]) == Bytes(a) + Bytes(b)
  {
    TotalOne(a);
    TotalOne(b);
    TotalSplit([a], [b]);
    assert [a] + [b] == [a, b];
  }

  lemma ClosedHead(a: nat, b: nat)
    ensures Bytes(Closed(Head(a, b), TAG)) == Frame() + a + b
  {
    TaskBytes(a);
    TaskBytes(b);
    var parts := [Open(TAG), OPENING, Title(), TaskLine(Pad(a)), TaskLine(Pad(b)), OMITTED, Close(TAG)];
    hide Bytes, Join, TaskLine, Pad, Title, Open, Close, Total;
    assert Head(a, b) + [OMITTED] + [Close(TAG)] == parts;
    JoinBytes(parts);
    TotalSeven(Open(TAG), OPENING, Title(), TaskLine(Pad(a)), TaskLine(Pad(b)), OMITTED, Close(TAG));
  }

  lemma {:induction false} ClosedMonotone(lines: seq<string>, i: nat, j: nat)
    requires 1 <= i <= j <= |lines|
    ensures Bytes(Closed(lines[..i], TAG)) <= Bytes(Closed(lines[..j], TAG))
    ensures i < j ==> Bytes(Closed(lines[..i], TAG)) < Bytes(Closed(lines[..j], TAG))
    decreases j
  {
    hide Bytes, Closed;
    if i < j {
      ClosedMonotone(lines, i, j - 1);
      ClosedGrows(lines[..j - 1], lines[j - 1], TAG);
      assert lines[..j - 1] + [lines[j - 1]] == lines[..j];
    }
  }

  // A block whose first five lines just fit is cut after them.
  lemma CutAtFive(lines: seq<string>)
    requires Framed(lines, TAG, LINE_CHARS) && |lines| >= 5
    requires var bounded := BoundLines(lines, LINE_CHARS);
             Bytes(Join(bounded)) > LEAST_BYTES && Bytes(Closed(bounded[..5], TAG)) == LEAST_BYTES
    requires Bytes(Capped(lines, TAG, Some(LEAST_BYTES), LINE_CHARS)) <= LEAST_BYTES
    ensures Bytes(Capped(lines, TAG, Some(LEAST_BYTES), LINE_CHARS)) == LEAST_BYTES
  {
    hide *;
    var bounded := BoundLines(lines, LINE_CHARS);
    var n := CapKeepsPrefix(lines, TAG, LEAST_BYTES, LINE_CHARS);
    if n < 5 {
      ClosedMonotone(bounded, n + 1, 5);
    } else if n > 5 {
      ClosedMonotone(bounded, 5, n);
    }
  }

  lemma FilledExactly(a: nat, b: nat)
    requires a <= 312 && b <= 312 && Frame() + a + b == LEAST_BYTES
    ensures Bytes(Block(Filling(a, b), true, Some(LEAST_BYTES))) == LEAST_BYTES
  {
    assert LEAST_BYTES == 512 && TOTAL_BYTES == 24576;
    hide *;
    var back := Filling(a, b);
    Overflows(a, b, true);
    BlockFramed(back, true);
    BoundedFilling(a, b, true);
    ClosedHead(a, b);
    BlockBounded(back, true, LEAST_BYTES);
    BlockIs(a, b, true, Some(LEAST_BYTES));
    CutAtFive(BlockLines(back, TAG, true));
  }

  predicate Fills(b: Backlog) {
    && Bytes(Block(b, true, Some(LEAST_BYTES))) == LEAST_BYTES
    && Bytes(Block(b, true, None)) > TOTAL_BYTES && Bytes(Block(b, false, None)) > TOTAL_BYTES
  }

  lemma FillingFills(a: nat, b: nat)
    requires a <= 312 && b <= 312 && Frame() + a + b == LEAST_BYTES
    ensures Fills(Filling(a, b))
  {
    hide Bytes, Block, Filling, Frame, BlockLines, BoundLines, Join;
    FilledExactly(a, b);
    Overflows(a, b, true);
    Overflows(a, b, false);
  }

  /** Some backlog of one current change takes every byte that the last step grants at least. */
  lemma FullBlock() returns (b: Backlog)
    ensures Fills(b)
  {
    assert LEAST_BYTES == 512;
    hide *;
    FrameFits();
    if Frame() >= 200 {
      FillingFills(512 - Frame(), 0);
      b := Filling(512 - Frame(), 0);
    } else {
      FillingFills(312, 200 - Frame());
      b := Filling(312, 200 - Frame());
    }
  }

  // ---------- the budget, exactly ----------

  // Whatever the backlog and the lessons, the output fits.
  ghost predicate AlwaysFits(p: Parts) {
    forall b, lessons :: Fits(Injected(p.(lessons := lessons), b))
  }

  lemma PartInside(p: Parts, block: string, more: seq<string>)
    requires block != ""
    ensures Bytes(With(p, [block] + more)) >= Bytes(block)
  {
    WithBytes(p, [block] + more);
    KeptSplit([block], more);
    KeptOne(block);
    TotalOne(block);
    var base := Kept([p.brain, p.profileNotice, p.router, p.focus]);
    TotalThree(base, [block], Kept(more));
    hide Kept, Bytes, Total;
    assert base + ([block] + Kept(more)) == base + [block] + Kept(more);
  }

  lemma FixedIgnoresLessons(p: Parts, lessons: string)
    ensures Fixed(p.(lessons := lessons)) == Fixed(p)
  {
  }

  lemma PartsInside(p: Parts, block: string)
    requires block != ""
    ensures Bytes(With(p, [block, p.lessons])) >= Bytes(block)
    ensures Bytes(With(p, [block, LESSONS_EVICTED])) >= Bytes(block)
    ensures Bytes(With(p, [block, LESSONS_EVICTED, OTHERS_EVICTED])) >= Bytes(block)
  {
    hide *;
    PartInside(p, block, [p.lessons]);
    PartInside(p, block, [LESSONS_EVICTED]);
    PartInside(p, block, [LESSONS_EVICTED, OTHERS_EVICTED]);
    assert [block] + [p.lessons] == [block, p.lessons] && [block] + [LESSONS_EVICTED] == [block, LESSONS_EVICTED];
    assert [block] + [LESSONS_EVICTED, OTHERS_EVICTED] == [block, LESSONS_EVICTED, OTHERS_EVICTED];
  }

  lemma NoBytes()
    ensures Bytes("") == 0
  {
  }

  // A block that alone exceeds the budget leaves the last step only.
  lemma LastStep(p: Parts, b: Backlog)
    requires p.harness && Fills(b)
    ensures Injected(p, b) == Summarized(p, b)
  {
    hide Bytes, With, Block, Summarized;
    NoBytes();
    PartsInside(p, Block(b, false, None));
    PartsInside(p, Block(b, true, None));
  }

  /** With the harness active, the output always fits exactly when the parts that cannot be evicted leave 513 bytes. */
  lemma BudgetExactly(p: Parts)
    requires p.harness
    ensures AlwaysFits(p) <==> Bytes(Fixed(p)) + LEAST_BYTES + 1 <= TOTAL_BYTES
  {
    hide Bytes, Fixed, Injected, Block, Summarized;
    if Bytes(Fixed(p)) + LEAST_BYTES + 1 <= TOTAL_BYTES {
      forall b, lessons ensures Fits(Injected(p.(lessons := lessons), b)) {
        FixedIgnoresLessons(p, lessons);
        BudgetHolds(p.(lessons := lessons), b);
      }
    } else {
      var b := FullBlock();
      LastStep(p, b);
      assert Remaining(p) == LEAST_BYTES;
      LastBytes(p, b);
      assert p.(lessons := p.lessons) == p;
      assert !Fits(Injected(p.(lessons := p.lessons), b));
    }
  }

  lemma LastBytes(p: Parts, b: Backlog)
    requires Bytes(Block(b, true, Some(Remaining(p)))) == LEAST_BYTES
    ensures Bytes(Summarized(p, b)) == Bytes(Fixed(p)) + LEAST_BYTES + 1
  {
    NoBytes();
    SummarizedBytes(p, Block(b, true, Some(Remaining(p))));
    hide Bytes, With, Block, Remaining, Fixed;
  }
}
