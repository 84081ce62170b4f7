/** Splitting a note loses nothing but the newlines between its blocks, and what counts as a key or as white space. */
module FrontmatterSplit {
  import opened Common
  import opened Frontmatter
  import opened FrontmatterText

  predicate OnlyNewlines(s: string) {
    forall c | c in s :: c == '\n' || c == '\r'
  }

  // The blocks, each with the newlines that follow it.
  function Glued(blocks: seq<string>, gaps: seq<string>): string
    requires |gaps| == |blocks|
  {
    if blocks == [] then "" else blocks[0] + gaps[0] + Glued(blocks[1..], gaps[1..])
  }

  lemma {:induction false} SkippedNewlines(s: string) returns (gap: string)
    ensures s == gap + SkipNewlines(s) && OnlyNewlines(gap)
    decreases |s|
  {
    if s != "" && (s[0] == '\n' || s[0] == '\r') {
      var rest := SkippedNewlines(s[1..]);
      gap := [s[0]] + rest;
      assert s == [s[0]] + s[1..];
    } else {
      gap := "";
    }
  }

  ghost predicate IsBlock(block: string) {
    exists inner :: block == "---\n" + inner + "\n---"
  }

  lemma FirstPiece(s: string) returns (gap: string)
    requires HasBlock(s)
    ensures s == FirstBlock(s) + gap + AfterBlock(s) && OnlyNewlines(gap) && IsBlock(FirstBlock(s))
  {
    BlockText(s);
    hide Fence, SkipNewlines, OnlyNewlines, Body;
    var n := Fence(s[4..]) + 8;
    gap := SkippedNewlines(s[n..]);
    assert FirstBlock(s) == s[..n] && AfterBlock(s) == SkipNewlines(s[n..]);
    hide FirstBlock, AfterBlock;
    assert s == s[..n] + s[n..];
  }

  /** Blocks, the newlines after each of them, and the body are the whole note again. */
  lemma {:induction false} SplitKeeps(s: string) returns (gaps: seq<string>)
    ensures var (blocks, body) := Split(s);
            && |gaps| == |blocks| && s == Glued(blocks, gaps) + body
            && (forall gap | gap in gaps :: OnlyNewlines(gap)) && (forall block | block in blocks :: IsBlock(block))
    decreases |s|
  {
    if HasBlock(s) {
      var gap := FirstPiece(s);
      var rest := SplitKeeps(AfterBlock(s));
      hide HasBlock, FirstBlock, AfterBlock, IsBlock, OnlyNewlines;
      gaps := [gap] + rest;
      var (blocks, body) := Split(AfterBlock(s));
      assert ([FirstBlock(s)] + blocks)[1..] == blocks && gaps[1..] == rest;
      assert Split(s) == ([FirstBlock(s)] + blocks, body);
      assert Glued([FirstBlock(s)] + blocks, gaps) == FirstBlock(s) + gap + Glued(blocks, rest);
    } else {
      gaps := [];
    }
  }

  // An ASCII letter or digit, `_` or `-`.
  predicate KeyChar(c: char) {
    var n := c as int;
    65 <= n <= 90 || 97 <= n <= 122 || 48 <= n <= 57 || n == 95 || n == 45
  }

  // The line is the key, a colon, and whatever follows.
  ghost predicate OpensWith(line: string, key: string) {
    key != "" && (forall c | c in key :: KeyChar(c)) && exists rest :: line == key + ":" + rest
  }

  /** A line opens an entry exactly when it begins with key characters, at least one, and a colon. */
  lemma KeyExactly(line: string, key: string)
    ensures KeyOf(line) == Some(key) <==> OpensWith(line, key)
  {
    var i := KeyLength(line);
    assert !IsKeyChar(':') && forall c :: IsKeyChar(c) == KeyChar(c);
    if KeyOf(line) == Some(key) {
      assert line == key + ":" + line[i + 1..];
      assert forall k | 0 <= k < i :: KeyChar(line[k]);
    }
    if OpensWith(line, key) {
      assert line[|key|] == ':';
      assert forall k | 0 <= k < |key| :: line[k] == key[k] && IsKeyChar(line[k]);
      assert i == |key|;
      assert line[..i] == key;
    }
  }

  /** White space is what trimming removes: ASCII blanks, Unicode space separators, line ends, the byte order mark. */
  lemma SpacesExactly(c: char)
    ensures IsSpace(c)
            <==> var n := c as int;
                 || n in {9, 10, 11, 12, 13, 32, 160, 5760, 8232, 8233, 8239, 8287, 12288, 65279}
                 || n in {8192, 8193, 8194, 8195, 8196, 8197, 8198, 8199, 8200, 8201, 8202}
  {
  }
}
