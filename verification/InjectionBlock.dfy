/** What the lines of the block of open changes say, line by line, and how a line is bounded. */
module InjectionBlock {
  import opened Common
  import opened Frontmatter
  import opened Injection
  import opened InjectionBudget
  import opened InjectionLadder

  /** A line that is too long keeps a prefix and the marker, and then has exactly the characters allowed. */
  lemma BoundExactly(line: string, maxChars: nat)
    requires maxChars >= |SHORTENED|
    ensures BoundLine(line, maxChars) == line <==> |line| <= maxChars
    ensures |line| > maxChars ==>
              && |BoundLine(line, maxChars)| == maxChars
              && BoundLine(line, maxChars)[..maxChars - |SHORTENED|] <= line
              && BoundLine(line, maxChars)[maxChars - |SHORTENED|..] == SHORTENED
  {
    if |line| > maxChars {
      var n := maxChars - |SHORTENED|;
      assert BoundLine(line, maxChars)[..n] == line[..n];
      assert BoundLine(line, maxChars)[n..] == SHORTENED;
    }
  }

  // The first character that does not fit into so many bytes of UTF-8.
  function Limit(bytes: nat): int {
    match bytes
    case 0 => 0
    case 1 => 0x80
    case 2 => 0x800
    case 3 => 0x10000
    case _ => 0x110000
  }

  /** A character takes the fewest bytes of UTF-8 (section 3 of RFC 3629) that it fits into. */
  lemma WeightExactly(c: char)
    ensures 1 <= Weight(c) <= 4 && Limit(Weight(c) - 1) <= c as int < Limit(Weight(c))
  {
  }

  /** A block that fits, to the last byte, is not cut. */
  lemma FittingStays(b: Backlog, currentOnly: bool, maxBytes: nat)
    ensures Bytes(Block(b, currentOnly, None)) <= maxBytes
            <==> Block(b, currentOnly, Some(maxBytes)) == Block(b, currentOnly, None)
                 && Bytes(Block(b, currentOnly, Some(maxBytes))) <= maxBytes
  {
    hide Bytes, BlockLines, Closed, FitCount, BodyLines;
  }

  // The number that decimal digits stand for.
  function Value(digits: string): nat
    requires forall i | 0 <= i < |digits| :: '0' <= digits[i] <= '9'
  {
    if digits == "" then 0 else 10 * Value(digits[..|digits| - 1]) + (digits[|digits| - 1] as int - '0' as int)
  }

  /** A number is written in decimal digits that stand for it, without a leading zero. */
  lemma {:induction false} DecimalReads(n: nat)
    ensures var s := Decimal(n);
            && s != "" && (forall i | 0 <= i < |s| :: '0' <= s[i] <= '9') && Value(s) == n
            && (n > 0 ==> s[0] != '0') && (n == 0 ==> s == "0")
  {
    var s := Decimal(n);
    if n < 10 {
      assert s[..0] == "";
    } else {
      DecimalReads(n / 10);
      assert |Decimal(n % 10)| == 1;
      assert s[..|s| - 1] == Decimal(n / 10);
    }
  }

  /** Open tasks are listed one a line, in order. */
  lemma {:induction false} TasksInOrder(tasks: seq<Task>)
    ensures |TaskLines(tasks)| == |tasks|
    ensures forall i | 0 <= i < |tasks| :: TaskLines(tasks)[i] == "- [ ] " + tasks[i].id + " " + tasks[i].text
  {
    if tasks != [] {
      TasksInOrder(tasks[..|tasks| - 1]);
    }
  }

  /** A change takes its header and then its warning, or that nothing is open, or its open tasks in order. */
  lemma ChangeSays(c: Change)
    ensures var lines := ChangeLines(c);
            && lines != [] && lines[0] == Header(c)
            && if c.warning != "" then lines[1..] == ["- Aviso: " + c.warning + "."]
               else if c.openTasks == [] then lines[1..] == ["- Nenhuma tarefa aberta."]
               else |lines| == 1 + |c.openTasks|
                    && forall i | 0 <= i < |c.openTasks| ::
                         lines[i + 1] == "- [ ] " + c.openTasks[i].id + " " + c.openTasks[i].text
  {
    TasksInOrder(c.openTasks);
    hide Decimal, TaskLines;
  }

  /** Changes are listed one after the other, in order. */
  lemma {:induction false} ChangesInOrder(changes: seq<Change>, i: nat)
    requires i < |changes|
    ensures exists before, after ::
              && AllChangeLines(changes) == before + ChangeLines(changes[i]) + after
              && before == AllChangeLines(changes[..i])
  {
    hide ChangeLines;
    var n := |changes| - 1;
    if i == n {
      assert AllChangeLines(changes) == AllChangeLines(changes[..i]) + ChangeLines(changes[i]) + [];
    } else {
      ChangesInOrder(changes[..n], i);
      assert changes[..n][..i] == changes[..i];
      var before, after :| AllChangeLines(changes[..n]) == before + ChangeLines(changes[i]) + after
                           && before == AllChangeLines(changes[..i]);
      assert AllChangeLines(changes) == before + ChangeLines(changes[i]) + (after + ChangeLines(changes[n]));
    }
  }

  // The changes that are not current.
  function Others(changes: seq<Change>): set<nat> {
    set i: nat | i < |changes| && !changes[i].current
  }

  lemma OthersGrow(changes: seq<Change>, last: Change)
    ensures |Others(changes + [last])| == |Others(changes)| + if last.current then 0 else 1
  {
    var n := |changes|;
    var all := changes + [last];
    assert forall i: nat :: i in Others(all) <==> i in Others(changes) || (i == n && !last.current);
    assert Others(all) == Others(changes) + (if last.current then {} else {n});
    assert n !in Others(changes);
  }

  /** In the restricted list exactly the current changes are visible; all others are counted as omitted. */
  lemma {:induction false} OmittedExactly(changes: seq<Change>)
    ensures |changes| - |Visible(changes, true)| == |Others(changes)| && Visible(changes, false) == changes
  {
    hide Others;
    if changes != [] {
      var n := |changes| - 1;
      OmittedExactly(changes[..n]);
      OthersGrow(changes[..n], changes[n]);
      assert changes[..n] + [changes[n]] == changes;
    } else {
      NoOthers();
    }
  }

  lemma NoOthers()
    ensures |Others([])| == 0
  {
    assert Others([]) == {};
  }

  function Flag(holds: bool): nat {
    if holds then 1 else 0
  }

  // The line about the current change, and the warning of the pointer if there is one.
  predicate HeadReads(b: Backlog, head: seq<string>) {
    && |head| == 1 + Flag(b.pointerWarning != "")
    && head[0] == (if b.current != "" then "Change atual (comandos sem --change): " + b.current + "." else NO_CURRENT)
    && (b.pointerWarning != "" ==> head[1] == "Aviso: " + b.pointerWarning + ".")
  }

  // How many changes were omitted if any, the hint for a current change, and the closing advice.
  predicate TailReads(b: Backlog, omitted: int, tail: seq<string>) {
    && |tail| == 1 + Flag(omitted > 0) + Flag(b.current != "") && tail[|tail| - 1] == FOOTER
    && (omitted > 0 ==> tail[0] == "- " + Decimal(omitted) + " change(s) não atual(is) omitida(s) pelo budget global.")
    && (b.current != "" ==> tail[|tail| - 2] == HINT)
  }

  lemma HeadSays(b: Backlog)
    ensures HeadReads(b, HeadLines(b))
  {
  }

  lemma TailSays(b: Backlog, omitted: int)
    ensures TailReads(b, omitted, TailLines(b, omitted))
  {
    hide Decimal;
  }

  function OpenTag(): string {
    "<open_changes>"
  }

  function CloseTag(): string {
    "</open_changes>"
  }

  lemma TagsAre()
    ensures Open(TAG) == OpenTag() && Close(TAG) == CloseTag()
  {
  }

  // The block from tag to tag: what it says first, the changes, what it says last, and nothing else.
  predicate BlockReads(b: Backlog, lines: seq<string>, shown: seq<string>, omitted: int) {
    && |lines| == 4 + Flag(b.pointerWarning != "") + |shown| + Flag(omitted > 0) + Flag(b.current != "")
    && lines[0] == OpenTag() && lines[|lines| - 1] == CloseTag()
    && var top := 2 + Flag(b.pointerWarning != "");
    && HeadReads(b, lines[1..top]) && lines[top..top + |shown|] == shown
    && TailReads(b, omitted, lines[top + |shown|..|lines| - 1])
  }

  lemma HeadLength(b: Backlog, head: seq<string>, omitted: int, tail: seq<string>)
    requires HeadReads(b, head) && TailReads(b, omitted, tail)
    ensures |head| == 1 + Flag(b.pointerWarning != "") && |tail| == 1 + Flag(omitted > 0) + Flag(b.current != "")
  {
  }

  lemma Pieces<T>(a: seq<T>, head: seq<T>, shown: seq<T>, tail: seq<T>, z: seq<T>)
    ensures var all := a + head + shown + tail + z;
            && all[|a|..|a| + |head|] == head && all[|a| + |head|..|a| + |head| + |shown|] == shown
            && all[|a| + |head| + |shown|..|all| - |z|] == tail
  {
  }

  lemma Assembled(b: Backlog, head: seq<string>, shown: seq<string>, tail: seq<string>, omitted: int)
    requires HeadReads(b, head) && TailReads(b, omitted, tail)
    ensures BlockReads(b, [OpenTag()] + head + shown + tail + [CloseTag()], shown, omitted)
  {
    HeadLength(b, head, omitted, tail);
    hide HeadReads, TailReads, OpenTag, CloseTag, Flag;
    var lines := [OpenTag()] + head + shown + tail + [CloseTag()];
    var top := 2 + Flag(b.pointerWarning != "");
    Pieces([OpenTag()], head, shown, tail, [CloseTag()]);
    assert |[OpenTag()]| == 1 && |[CloseTag()]| == 1 && top == 1 + |head|;
  }

  /**
   Between its tags the block names the current change or says that there is none, then the warning of the pointer, then
   the visible changes, then how many were omitted, the hint for a current change, and the closing advice; nothing else.
   */
  lemma BlockSays(b: Backlog, currentOnly: bool)
    ensures BlockReads(b, BlockLines(b, TAG, currentOnly), AllChangeLines(Visible(b.changes, currentOnly)),
                       if currentOnly then |Others(b.changes)| else 0)
  {
    hide *;
    OmittedExactly(b.changes);
    var shown := AllChangeLines(Visible(b.changes, currentOnly));
    var omitted := |b.changes| - |Visible(b.changes, currentOnly)|;
    HeadSays(b);
    TailSays(b, omitted);
    TagsAre();
    BlockPieces(b, currentOnly);
    Assembled(b, HeadLines(b), shown, TailLines(b, omitted), omitted);
  }

  lemma BlockPieces(b: Backlog, currentOnly: bool)
    ensures BlockLines(b, TAG, currentOnly)
            == [Open(TAG)] + HeadLines(b) + AllChangeLines(Visible(b.changes, currentOnly))
               + TailLines(b, |b.changes| - |Visible(b.changes, currentOnly)|) + [Close(TAG)]
  {
    hide Visible, AllChangeLines, Open, Close, HeadLines, TailLines;
    assert TAG != "";
  }

  /** There is no block exactly when there is nothing to tell: no change and no warning of the pointer. */
  lemma NoBlock(b: Backlog, currentOnly: bool)
    ensures Block(b, currentOnly, None) == "" <==> b.changes == [] && b.pointerWarning == ""
  {
    if b.changes != [] || b.pointerWarning != "" {
      BlockFramed(b, currentOnly);
      TagIsShort();
      BlockStarts(BlockLines(b, TAG, currentOnly), TAG);
    }
    hide BlockLines, Open, Close;
  }

  lemma BlockStarts(lines: seq<string>, tag: string)
    requires Framed(lines, tag, LINE_CHARS) && |Open(tag)| > 0
    ensures Join(BoundLines(lines, LINE_CHARS)) != ""
  {
    FramedLines(lines, tag, LINE_CHARS);
    var bounded := BoundLines(lines, LINE_CHARS);
    hide Join, BoundLine, Open;
    JoinInside(bounded, 0);
    var a, c :| Join(bounded) == a + bounded[0] + c;
    assert |Join(bounded)| > 0;
  }
}
