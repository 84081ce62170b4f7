/** Lines and fences of a note: joining and splitting, and where the first fence of joined lines is. */
module FrontmatterText {
  import opened Common
  import opened Frontmatter

  predicate AllPlain(lines: seq<string>) {
    forall i | 0 <= i < |lines| :: Plain(lines[i])
  }

  lemma NewlineIs(s: string, i: nat)
    requires i <= |s| && (forall k | 0 <= k < i :: s[k] != '\n') && (i < |s| ==> s[i] == '\n')
    ensures NewlineAt(s) == i
  {
  }

  lemma {:induction false} LinesPlain(s: string)
    ensures AllPlain(Lines(s))
    decreases |s|
  {
    var i := NewlineAt(s);
    if i < |s| {
      LinesPlain(s[i + 1..]);
    }
  }

  lemma LinesCons(line: string, rest: string)
    requires Plain(line)
    ensures Lines(line + "\n" + rest) == [line] + Lines(rest)
  {
    var s := line + "\n" + rest;
    NewlineIs(s, |line|);
    assert s[..|line|] == line && s[|line| + 1..] == rest;
  }

  lemma LinesOne(line: string)
    requires Plain(line)
    ensures Lines(line) == [line]
  {
    NewlineIs(line, |line|);
  }

  lemma JoinCons(lines: seq<string>)
    requires |lines| > 1
    ensures Join(lines) == lines[0] + "\n" + Join(lines[1..])
  {
  }

  lemma {:induction false} LinesOfJoin(lines: seq<string>)
    requires lines != [] && AllPlain(lines)
    ensures Lines(Join(lines)) == lines
  {
    if |lines| == 1 {
      LinesOne(lines[0]);
    } else {
      JoinCons(lines);
      LinesCons(lines[0], Join(lines[1..]));
      hide Lines, Join;
      LinesOfJoin(lines[1..]);
    }
  }

  lemma {:induction false} JoinOfLines(s: string)
    ensures Join(Lines(s)) == s
    decreases |s|
  {
    var i := NewlineAt(s);
    if i < |s| {
      JoinOfLines(s[i + 1..]);
      LinesAt(s, i);
      hide Lines, NewlineAt;
      assert s == s[..i] + "\n" + s[i + 1..];
      JoinCons(Lines(s));
    }
  }

  lemma LinesAt(s: string, i: nat)
    requires i == NewlineAt(s) && i < |s|
    ensures Lines(s)[0] == s[..i] && Lines(s)[1..] == Lines(s[i + 1..]) && |Lines(s)| > 1
  {
  }

  // ---------- fences ----------

  lemma {:induction false} FencePast(line: string, rest: string)
    requires Plain(line)
    ensures Fence(line + "\n" + rest) == if Dashed(rest) then |line| else |line| + 1 + Fence(rest)
    decreases |line|
  {
    var s := line + "\n" + rest;
    if line == "" {
      assert s == "\n" + rest;
      FenceHere(rest);
    } else {
      assert s[0] == line[0] && s[1..] == line[1..] + "\n" + rest;
      FencePast(line[1..], rest);
    }
  }

  lemma FenceHere(rest: string)
    ensures Fence("\n" + rest) == if Dashed(rest) then 0 else 1 + Fence(rest)
  {
    var s := "\n" + rest;
    assert s[1..] == rest;
    if |s| >= 4 {
      assert s[..4] == "\n" + rest[..3];
      assert s[..4][1..] == rest[..3] && "\n---"[1..] == "---";
    }
  }

  // The first line after the first that opens with three dashes.
  function FirstDashed(lines: seq<string>): (m: nat)
    requires lines != []
    ensures 1 <= m <= |lines| && (forall i | 1 <= i < m :: !Dashed(lines[i])) && (m < |lines| ==> Dashed(lines[m]))
  {
    if |lines| == 1 || Dashed(lines[1]) then 1
    else
      var n := FirstDashed(lines[1..]);
      assert forall i | 1 < i < n + 1 :: lines[i] == lines[1..][i - 1];
      n + 1
  }

  lemma DashedHead(line: string, more: string)
    requires Plain(line)
    ensures Dashed(line + "\n" + more) <==> Dashed(line)
    ensures Dashed(line + "\n---" + more) <==> Dashed(line)
  {
    var s, t := line + "\n" + more, line + "\n---" + more;
    assert |line| < 3 ==> s[|line|] == '\n' && t[|line|] == '\n';
    assert |line| >= 3 ==> s[..3] == line[..3] && t[..3] == line[..3];
  }

  /** The first fence of joined lines stands before the first dashed line, or at their end. */
  lemma {:induction false} FenceOfLines(lines: seq<string>, tail: string)
    requires lines != [] && AllPlain(lines)
    ensures Fence(Join(lines) + "\n---" + tail) == |Join(lines[..FirstDashed(lines)])|
  {
    hide Fence;
    if |lines| == 1 {
      assert lines[..1] == lines;
      LastFence(lines[0], tail);
    } else {
      hide Join;
      var rest := Join(lines[1..]) + "\n---" + tail;
      JoinMore(lines, tail);
      FencePast(lines[0], rest);
      HeadDashed(lines[1..], tail);
      if Dashed(lines[1]) {
        assert lines[..1] == [lines[0]];
        JoinOne(lines[0]);
      } else {
        hide Dashed;
        FenceOfLines(lines[1..], tail);
        JoinLength(lines, FirstDashed(lines[1..]));
      }
    }
  }

  lemma LastFence(line: string, tail: string)
    requires Plain(line)
    ensures Fence(line + "\n---" + tail) == |line|
  {
    hide Fence;
    assert line + "\n---" + tail == line + "\n" + ("---" + tail);
    FencePast(line, "---" + tail);
  }

  lemma JoinOne(line: string)
    ensures Join([line]) == line
  {
  }

  lemma JoinMore(lines: seq<string>, tail: string)
    requires |lines| > 1
    ensures Join(lines) + "\n---" + tail == lines[0] + "\n" + (Join(lines[1..]) + "\n---" + tail)
  {
    JoinCons(lines);
    hide Join;
  }

  lemma JoinLength(lines: seq<string>, m: nat)
    requires 1 <= m < |lines|
    ensures |Join(lines[..m + 1])| == |lines[0]| + 1 + |Join(lines[1..][..m])|
  {
    JoinCons(lines[..m + 1]);
    hide Join;
    assert lines[..m + 1][1..] == lines[1..][..m];
  }

  lemma HeadDashed(lines: seq<string>, tail: string)
    requires lines != [] && AllPlain(lines)
    ensures Dashed(Join(lines) + "\n---" + tail) <==> Dashed(lines[0])
  {
    if |lines| == 1 {
      DashedHead(lines[0], tail);
    } else {
      JoinMore(lines, tail);
      hide Join, Dashed;
      DashedHead(lines[0], Join(lines[1..]) + "\n---" + tail);
    }
  }

  lemma {:induction false} JoinPrefix(lines: seq<string>, m: nat)
    requires 1 <= m <= |lines|
    ensures Join(lines[..m]) <= Join(lines)
  {
    if m == |lines| {
      assert lines[..m] == lines;
    } else if m == 1 {
      JoinCons(lines);
      assert lines[..1] == [lines[0]];
    } else {
      JoinPrefix(lines[1..], m - 1);
      JoinCons(lines);
      JoinCons(lines[..m]);
      assert lines[..m][1..] == lines[1..][..m - 1];
      PrefixCons(lines[0] + "\n", Join(lines[..m][1..]), Join(lines[1..]));
    }
  }

  lemma PrefixCons(a: string, b: string, c: string)
    requires b <= c
    ensures a + b <= a + c
  {
  }

  // ---------- a block and its text ----------

  function Body(s: string): string
    requires HasBlock(s)
  {
    s[4..4 + Fence(s[4..])]
  }

  lemma BlockText(s: string)
    requires HasBlock(s)
    ensures FirstBlock(s) == "---\n" + Body(s) + "\n---" && Inner(FirstBlock(s)) == Body(s)
  {
    var c := Fence(s[4..]);
    assert s[4..][c..c + 4] == s[4 + c..8 + c];
    assert s[..4] == "---\n";
    assert FirstBlock(s) == s[..4] + s[4..4 + c] + s[4 + c..8 + c];
    InnerOf(Body(s));
  }

  lemma InnerOf(body: string)
    ensures Inner("---\n" + body + "\n---") == body
  {
    var block := "---\n" + body + "\n---";
    assert block[4..] == body + "\n---";
    var rest := body + "\n---";
    assert rest[|rest| - 4..] == "\n---" && rest[..|rest| - 4] == body;
  }

  predicate CleanLines(lines: seq<string>)
    requires lines != []
  {
    FirstDashed(lines) == |lines|
  }

  /** No line of a split block but its first opens with three dashes. */
  lemma BlockClean(s: string)
    requires HasBlock(s)
    ensures CleanLines(Lines(Body(s)))
  {
    var t, c := s[4..], Fence(s[4..]);
    var body, tail := Body(s), s[8 + c..];
    assert t == body + "\n---" + tail by {
      assert t[c..c + 4] == "\n---";
      assert t == t[..c] + t[c..c + 4] + t[c + 4..];
    }
    var lines := Lines(body);
    LinesPlain(body);
    JoinOfLines(body);
    FenceOfLines(lines, tail);
    var m := FirstDashed(lines);
    if m < |lines| {
      ShorterJoin(lines, m);
    }
  }

  lemma {:induction false} ShorterJoin(lines: seq<string>, m: nat)
    requires 1 <= m < |lines|
    ensures |Join(lines[..m])| < |Join(lines)|
  {
    JoinCons(lines);
    if m == 1 {
      assert lines[..1] == [lines[0]];
    } else {
      ShorterJoin(lines[1..], m - 1);
      JoinCons(lines[..m]);
      assert lines[..m][1..] == lines[1..][..m - 1];
    }
  }

  // ---------- splitting the text of one block ----------

  lemma SkipNone(s: string)
    requires s == "" || (s[0] != '\n' && s[0] != '\r')
    ensures SkipNewlines(s) == s && SkipNewlines("\n\n" + s) == s
  {
    assert ("\n\n" + s)[1..] == "\n" + s && ("\n" + s)[1..] == s;
  }

  /** What a split leaves opens with no newline and no further block. */
  lemma {:induction false} SplitRest(s: string)
    ensures var (blocks, body) := Split(s);
            !HasBlock(body) && (blocks != [] ==> body == "" || (body[0] != '\n' && body[0] != '\r'))
    decreases |s|
  {
    if HasBlock(s) {
      SplitRest(AfterBlock(s));
    }
  }

  /** The first block of joined lines ends before their first dashed line. */
  lemma FirstBlockOfLines(lines: seq<string>, tail: string)
    requires lines != [] && AllPlain(lines)
    ensures var s := "---\n" + Join(lines) + "\n---" + tail;
            HasBlock(s) && Body(s) == Join(lines[..FirstDashed(lines)])
  {
    FenceOfLines(lines, tail);
    JoinPrefix(lines, FirstDashed(lines));
    hide *;
    var j, p := Join(lines), Join(lines[..FirstDashed(lines)]);
    BodyOf(j + "\n---" + tail);
    Bracketed(j, tail);
    HeadOfJoin(j, p, "\n---" + tail);
  }

  lemma Bracketed(j: string, tail: string)
    ensures "---\n" + j + "\n---" + tail == "---\n" + (j + "\n---" + tail)
  {
  }

  lemma HeadOfJoin(j: string, p: string, more: string)
    requires p <= j
    ensures p <= j + more && (j + more)[..|p|] == p
  {
  }

  lemma BodyOf(t: string)
    requires Fence(t) < |t|
    ensures HasBlock("---\n" + t) && Body("---\n" + t) == t[..Fence(t)]
  {
    hide Fence;
    AfterHead("---\n", t);
    MiddleOf("---\n", t, Fence(t));
  }

  lemma MiddleOf(a: string, b: string, n: nat)
    requires n <= |b|
    ensures (a + b)[|a|..|a| + n] == b[..n]
  {
  }
}
