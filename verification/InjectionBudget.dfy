/** The byte budget of the injected context holds, and a capped block keeps a prefix between its tags. */
module InjectionBudget {
  import opened Common
  import opened Frontmatter
  import opened Injection

  // ---------- bytes ----------

  lemma {:induction false} BytesSplit(a: string, b: string)
    ensures Bytes(a + b) == Bytes(a) + Bytes(b)
  {
    if b == "" {
      assert a + b == a;
    } else {
      assert (a + b)[..|a + b| - 1] == a + b[..|b| - 1];
      BytesSplit(a, b[..|b| - 1]);
    }
  }

  lemma {:induction false} BytesBound(s: string)
    ensures |s| <= Bytes(s) <= 4 * |s|
  {
    if s != "" {
      BytesBound(s[..|s| - 1]);
    }
  }

  function Total(parts: seq<string>): nat {
    if parts == [] then 0 else Total(parts[..|parts| - 1]) + Bytes(parts[|parts| - 1])
  }

  lemma {:induction false} TotalSplit(a: seq<string>, b: seq<string>)
    ensures Total(a + b) == Total(a) + Total(b)
  {
    if b == [] {
      assert a + b == a;
    } else {
      assert (a + b)[..|a + b| - 1] == a + b[..|b| - 1];
      TotalSplit(a, b[..|b| - 1]);
    }
  }

  lemma {:induction false} JoinBytes(parts: seq<string>)
    requires parts != []
    ensures Bytes(Join(parts)) == Total(parts) + |parts| - 1
  {
    hide Bytes;
    TotalSplit([parts[0]], parts[1..]);
    assert [parts[0]] + parts[1..] == parts;
    assert Total([parts[0]]) == Bytes(parts[0]) by { assert [parts[0]][..0] == []; }
    if |parts| > 1 {
      JoinBytes(parts[1..]);
      BytesSplit(parts[0] + "\n", Join(parts[1..]));
      BytesSplit(parts[0], "\n");
      NewlineByte();
    }
  }

  lemma NewlineByte()
    ensures Bytes("\n") == 1
  {
    assert "\n"[..0] == "";
  }

  // ---------- parts that are left out ----------

  predicate NonEmpty(parts: seq<string>) {
    forall i | 0 <= i < |parts| :: parts[i] != ""
  }

  lemma {:induction false} KeptSplit(a: seq<string>, b: seq<string>)
    ensures Kept(a + b) == Kept(a) + Kept(b)
  {
    if b == [] {
      assert a + b == a;
    } else {
      assert (a + b)[..|a + b| - 1] == a + b[..|b| - 1];
      KeptSplit(a, b[..|b| - 1]);
    }
  }

  lemma {:induction false} KeptAll(parts: seq<string>)
    requires NonEmpty(parts)
    ensures Kept(parts) == parts
  {
    if parts != [] {
      KeptAll(parts[..|parts| - 1]);
    }
  }

  lemma KeptOne(part: string)
    ensures Kept([part]) == if part != "" then [part] else []
  {
    assert [part][..0] == [];
  }

  // ---------- the capped block ----------

  lemma BoundNonEmpty(lines: seq<string>, maxChars: nat)
    requires NonEmpty(lines)
    ensures NonEmpty(BoundLines(lines, maxChars))
  {
  }

  lemma {:induction false} FitCountFits(body: seq<string>, tag: string, maxBytes: nat, n: nat)
    requires n <= |body|
    ensures var k := FitCount(body, tag, maxBytes, n);
            && (n < k ==> Bytes(Candidate(body[..k], tag)) <= maxBytes)
            && (k < |body| ==> Bytes(Candidate(body[..k + 1], tag)) > maxBytes)
    decreases |body| - n
  {
    hide Bytes, Candidate;
    if n < |body| && Bytes(Candidate(body[..n + 1], tag)) <= maxBytes {
      FitCountFits(body, tag, maxBytes, n + 1);
    }
  }

  // With no empty line, what is measured is what is written.
  lemma CandidateIsClosed(out: seq<string>, tag: string)
    requires NonEmpty(out)
    ensures Candidate(out, tag) == Closed(out, tag)
  {
    var close := Close(tag);
    KeptSplit(out, [OMITTED, close]);
    KeptAll(out);
    assert [OMITTED, close] == [OMITTED] + [close];
    KeptSplit([OMITTED], [close]);
    KeptOne(OMITTED);
    KeptOne(close);
    hide Kept, Join;
    assert out + ([OMITTED] + Kept([close])) == out + [OMITTED] + Kept([close]);
  }

  /** A capped block never exceeds its bytes, down to the marked and closed tag alone. */
  lemma CapBounded(lines: seq<string>, tag: string, maxBytes: nat, maxChars: nat)
    requires NonEmpty(lines)
    requires Bytes(Closed(if tag != "" then [Open(tag)] else [], tag)) <= maxBytes
    ensures Bytes(Capped(lines, tag, Some(maxBytes), maxChars)) <= maxBytes
  {
    BoundNonEmpty(lines, maxChars);
    var body := BodyLines(lines, tag, maxChars);
    var n := FitCount(body, tag, maxBytes, 0);
    FitCountFits(body, tag, maxBytes, 0);
    CandidateIsClosed(body[..n], tag);
    hide Bytes, Join, Closed, Candidate, FitCount, Open;
    assert body[..0] == [];
  }

  predicate Framed(lines: seq<string>, tag: string, maxChars: nat) {
    && tag != "" && |lines| >= 3 && lines[0] == Open(tag) && lines[|lines| - 1] == Close(tag)
    && |Open(tag)| <= maxChars && |Close(tag)| <= maxChars && NonEmpty(lines)
  }

  // What the bounding leaves of a framed block: the tags as they are.
  lemma FramedLines(lines: seq<string>, tag: string, maxChars: nat)
    requires Framed(lines, tag, maxChars)
    ensures var bounded, body := BoundLines(lines, maxChars), BodyLines(lines, tag, maxChars);
            NonEmpty(bounded) && |body| == |lines| - 1 && body == bounded[..|body|] && bounded == body + [Close(tag)]
            && bounded[0] == body[0] == Open(tag)
  {
    hide Open, Close;
    BoundNonEmpty(lines, maxChars);
    BoundShort(Open(tag), maxChars);
    BoundShort(Close(tag), maxChars);
    hide BoundLine;
    var bounded, n := BoundLines(lines, maxChars), |lines| - 1;
    assert bounded[n] == Close(tag);
    assert bounded == bounded[..n] + [bounded[n]];
  }

  lemma BoundShort(line: string, maxChars: nat)
    requires |line| <= maxChars
    ensures BoundLine(line, maxChars) == line
  {
  }

  lemma ClosedGrows(out: seq<string>, line: string, tag: string)
    requires out != []
    ensures Bytes(Closed(out + [line], tag)) > Bytes(Closed(out, tag))
  {
    var tail := [OMITTED] + if tag != "" then [Close(tag)] else [];
    JoinBytes(out + tail);
    JoinBytes(out + [line] + tail);
    TotalSplit(out + [line], tail);
    TotalSplit(out, tail);
    TotalSplit(out, [line]);
    hide Bytes, Join, Total, Close;
    assert out + [OMITTED] + (if tag != "" then [Close(tag)] else []) == out + tail;
    assert out + [line] + [OMITTED] + (if tag != "" then [Close(tag)] else []) == out + [line] + tail;
  }

  /**
   A framed block that does not fit keeps a proper prefix of its bounded lines, its opening tag first, followed by
   the marker and the closing tag; one more line would not have fit.
   */
  lemma CapKeepsPrefix(lines: seq<string>, tag: string, maxBytes: nat, maxChars: nat) returns (n: nat)
    requires Framed(lines, tag, maxChars) && Bytes(Join(BoundLines(lines, maxChars))) > maxBytes
    ensures var bounded, block := BoundLines(lines, maxChars), Capped(lines, tag, Some(maxBytes), maxChars);
            && 1 <= n < |bounded| - 1
            && block == Closed(bounded[..n], tag) && bounded[0] == Open(tag)
            && Bytes(Closed(bounded[..n + 1], tag)) > maxBytes
  {
    hide Bytes, Join, Candidate, FitCount, BoundLine, Open, Close, Closed, BodyLines;
    var bounded, body := BoundLines(lines, maxChars), BodyLines(lines, tag, maxChars);
    FramedLines(lines, tag, maxChars);
    WholeFits(body, tag);
    var k := FitCount(body, tag, maxBytes, 0);
    FitCountFits(body, tag, maxBytes, 0);
    if k < |body| {
      CandidateIsClosed(body[..k + 1], tag);
    }
    CandidateIsClosed(body[..k], tag);
    assert body[..|body|] == body;
    n := if k == 0 then 1 else k;
    assert body[..1] == [Open(tag)];
    assert bounded[..n] == body[..n];
    if k == 0 {
      assert bounded[..2] == body[..1] + [bounded[1]];
      ClosedGrows(body[..1], bounded[1], tag);
    } else {
      assert k < |body|;
      assert bounded[..n + 1] == body[..n + 1];
    }
  }

  // Marker and closing tag only add to the whole block.
  lemma WholeFits(body: seq<string>, tag: string)
    requires tag != "" && body != []
    ensures Bytes(Closed(body, tag)) > Bytes(Join(body + [Close(tag)]))
  {
    JoinBytes(body + [OMITTED] + [Close(tag)]);
    JoinBytes(body + [Close(tag)]);
    TotalSplit(body + [OMITTED], [Close(tag)]);
    TotalSplit(body, [OMITTED]);
    TotalSplit(body, [Close(tag)]);
    hide Bytes, Join, Total;
  }

  // ---------- the blocks of the ladder ----------

  lemma {:induction false} TasksNonEmpty(tasks: seq<Task>)
    ensures NonEmpty(TaskLines(tasks))
  {
    if tasks != [] {
      TasksNonEmpty(tasks[..|tasks| - 1]);
    }
  }

  lemma {:induction false} ChangesNonEmpty(changes: seq<Change>)
    ensures NonEmpty(AllChangeLines(changes))
  {
    if changes != [] {
      ChangesNonEmpty(changes[..|changes| - 1]);
      TasksNonEmpty(changes[|changes| - 1].openTasks);
      hide Decimal, TaskLines;
    }
  }

  lemma TagIsShort()
    ensures |Open(TAG)| == 14 && |Close(TAG)| == 15 && |OMITTED| == 53
  {
    assert Open(TAG) == "<open_changes>" && Close(TAG) == "</open_changes>";
  }

  lemma NonEmptyJoin(a: seq<string>, b: seq<string>)
    requires NonEmpty(a) && NonEmpty(b)
    ensures NonEmpty(a + b)
  {
  }

  lemma HeadNonEmpty(b: Backlog)
    ensures NonEmpty(HeadLines(b)) && |HeadLines(b)| >= 1
  {
    assert NO_CURRENT != "";
  }

  lemma TailNonEmpty(b: Backlog, omitted: int)
    ensures NonEmpty(TailLines(b, omitted)) && |TailLines(b, omitted)| >= 1
  {
    assert HINT != "" && FOOTER != "";
    assert omitted > 0 ==> OmittedLine(omitted)[0] == '-';
    hide OmittedLine;
  }

  /** Every block of open changes is framed by its tag and has no empty line. */
  lemma BlockFramed(b: Backlog, currentOnly: bool)
    ensures Framed(BlockLines(b, TAG, currentOnly), TAG, LINE_CHARS)
  {
    var visible := Visible(b.changes, currentOnly);
    var omitted := |b.changes| - |visible|;
    ChangesNonEmpty(visible);
    TagIsShort();
    HeadNonEmpty(b);
    TailNonEmpty(b, omitted);
    hide Visible, AllChangeLines, Open, Close, HeadLines, TailLines;
    var open, close := [Open(TAG)], [Close(TAG)];
    NonEmptyJoin(open, HeadLines(b));
    NonEmptyJoin(open + HeadLines(b), AllChangeLines(visible));
    NonEmptyJoin(open + HeadLines(b) + AllChangeLines(visible), TailLines(b, omitted));
    NonEmptyJoin(open + HeadLines(b) + AllChangeLines(visible) + TailLines(b, omitted), close);
    assert BlockLines(b, TAG, currentOnly)
           == open + HeadLines(b) + AllChangeLines(visible) + TailLines(b, omitted) + close;
  }

  lemma LeastBlock()
    ensures Bytes(Closed([Open(TAG)], TAG)) <= LEAST_BYTES
  {
    TagIsShort();
    var open, close := Open(TAG), Close(TAG);
    BytesBound(open);
    BytesBound(OMITTED);
    BytesBound(close);
    hide Open, Close, Bytes;
    var parts := [open, OMITTED, close];
    assert Closed([open], TAG) == Join(parts) by { assert [open] + [OMITTED] + [close] == parts; }
    JoinBytes(parts);
    assert parts[..2] == [open, OMITTED] && parts[..2][..1] == [open] && [open][..0] == [];
    assert Total(parts) == Total([open, OMITTED]) + Bytes(close);
    assert Total([open, OMITTED]) == Total([open]) + Bytes(OMITTED);
    assert Total([open]) == Bytes(open);
  }

  lemma BlockBounded(b: Backlog, currentOnly: bool, maxBytes: nat)
    requires maxBytes >= LEAST_BYTES
    ensures Bytes(Block(b, currentOnly, Some(maxBytes))) <= maxBytes
  {
    BlockFramed(b, currentOnly);
    LeastBlock();
    hide Bytes, Closed, Open, BlockLines, Capped, Close;
    if b.changes != [] || b.pointerWarning != "" {
      CapBounded(BlockLines(b, TAG, currentOnly), TAG, maxBytes, LINE_CHARS);
    } else {
      assert Bytes("") == 0 by { BytesBound(""); }
    }
  }

  // ---------- the budget ----------

  lemma WithBytes(p: Parts, more: seq<string>)
    ensures var parts := Kept([p.brain, p.profileNotice, p.router, p.focus]) + Kept(more);
            Bytes(With(p, more)) == if parts == [] then 0 else Total(parts) + |parts| - 1
  {
    KeptSplit([p.brain, p.profileNotice, p.router, p.focus], more);
    hide Kept;
    var parts := Kept([p.brain, p.profileNotice, p.router, p.focus]) + Kept(more);
    if parts != [] {
      JoinBytes(parts);
    }
  }

  lemma TotalThree(a: seq<string>, b: seq<string>, c: seq<string>)
    ensures Total(a + b + c) == Total(a) + Total(b) + Total(c)
  {
    TotalSplit(a + b, c);
    TotalSplit(a, b);
  }

  lemma KeptNotices(block: string)
    ensures Kept([LESSONS_EVICTED, OTHERS_EVICTED, CURRENT_SUMMARIZED]) == [LESSONS_EVICTED, OTHERS_EVICTED]
            + [CURRENT_SUMMARIZED]
    ensures Kept([LESSONS_EVICTED, OTHERS_EVICTED, block, CURRENT_SUMMARIZED])
            == [LESSONS_EVICTED, OTHERS_EVICTED] + Kept([block]) + [CURRENT_SUMMARIZED]
  {
    var l, o, c := LESSONS_EVICTED, OTHERS_EVICTED, CURRENT_SUMMARIZED;
    assert l != "" && o != "" && c != "";
    KeptAll([l, o]);
    KeptAll([c]);
    KeptSplit([l, o], [c]);
    assert [l, o, c] == [l, o] + [c];
    KeptSplit([l, o] + [block], [c]);
    KeptSplit([l, o], [block]);
    assert [l, o, block, c] == [l, o] + [block] + [c];
  }

  // A further part in the middle costs its bytes and one line feed.
  lemma TotalMiddle(base: seq<string>, head: seq<string>, mid: seq<string>, last: seq<string>)
    ensures Total(base + (head + mid + last)) == Total(base + (head + last)) + Total(mid)
    ensures |base + (head + mid + last)| == |base + (head + last)| + |mid|
  {
    hide Total;
    TotalSplit(base, head + mid + last);
    TotalSplit(base, head + last);
    TotalThree(head, mid, last);
    TotalSplit(head, last);
  }

  lemma TotalOne(part: string)
    ensures Total([part]) == Bytes(part) && Total([]) == 0
  {
    assert [part][..0] == [];
    hide Bytes;
  }

  // The last step is the fixed text with the bounded block in it.
  lemma SummarizedBytes(p: Parts, block: string)
    ensures Bytes(With(p, [LESSONS_EVICTED, OTHERS_EVICTED, block, CURRENT_SUMMARIZED]))
            == Bytes(Fixed(p)) + if block == "" then 0 else Bytes(block) + 1
  {
    KeptNotices(block);
    WithBytes(p, [LESSONS_EVICTED, OTHERS_EVICTED, block, CURRENT_SUMMARIZED]);
    WithBytes(p, [LESSONS_EVICTED, OTHERS_EVICTED, CURRENT_SUMMARIZED]);
    KeptOne(block);
    TotalOne(block);
    assert Fixed(p) == With(p, [LESSONS_EVICTED, OTHERS_EVICTED, CURRENT_SUMMARIZED]);
    hide *;
    TotalMiddle(Kept([p.brain, p.profileNotice, p.router, p.focus]), [LESSONS_EVICTED, OTHERS_EVICTED], Kept([block]),
                [CURRENT_SUMMARIZED]);
  }

  /** With the harness active, the output fits whenever the parts that cannot be evicted leave 513 bytes. */
  lemma BudgetHolds(p: Parts, b: Backlog)
    requires p.harness && Bytes(Fixed(p)) + LEAST_BYTES + 1 <= TOTAL_BYTES
    ensures Fits(Injected(p, b))
  {
    hide Bytes, With, Block;
    if !Fits(Full(p, b)) && !Fits(WithoutLessons(p, b)) && !Fits(CurrentOnly(p, b)) {
      BlockBounded(b, true, Remaining(p));
      SummarizedBytes(p, Block(b, true, Some(Remaining(p))));
    }
  }

  lemma BaseInside(p: Parts, more: seq<string>)
    ensures Bytes(With(p, [])) <= Bytes(With(p, more))
  {
    WithBytes(p, more);
    WithBytes(p, []);
    var base := Kept([p.brain, p.profileNotice, p.router, p.focus]);
    assert Kept([]) == [];
    TotalSplit(base, Kept(more));
    hide Kept, Bytes;
    assert base + [] == base;
  }

  /** No step helps when memory, profile, router and focus alone exceed the budget: they are never cut. */
  lemma BudgetLost(p: Parts, b: Backlog)
    requires p.harness && Bytes(With(p, [])) > TOTAL_BYTES
    ensures !Fits(Injected(p, b))
  {
    hide Bytes, With, Block;
    BaseInside(p, [Block(b, false, None), p.lessons]);
    BaseInside(p, [Block(b, false, None), LESSONS_EVICTED]);
    BaseInside(p, [Block(b, true, None), LESSONS_EVICTED, OTHERS_EVICTED]);
    BaseInside(p, [LESSONS_EVICTED, OTHERS_EVICTED, Block(b, true, Some(Remaining(p))), CURRENT_SUMMARIZED]);
  }
}
