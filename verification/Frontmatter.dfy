/** Stacked frontmatter (hooks/frontmatter-repair.mjs): splitting a note, parsing its blocks and fusing them. */
module Frontmatter {
  import opened Common

  // ---------- text ----------

  function NewlineAt(s: string): (i: nat)
    ensures i <= |s| && (forall k | 0 <= k < i :: s[k] != '\n') && (i < |s| ==> s[i] == '\n')
  {
    if s == "" || s[0] == '\n' then 0 else 1 + NewlineAt(s[1..])
  }

  function Lines(s: string): (r: seq<string>)
    ensures r != []
  {
    var i := NewlineAt(s);
    if i == |s| then [s] else [s[..i]] + Lines(s[i + 1..])
  }

  function Join(lines: seq<string>): string {
    if lines == [] then "" else if |lines| == 1 then lines[0] else lines[0] + "\n" + Join(lines[1..])
  }

  predicate Plain(line: string) {
    '\n' !in line
  }

  // Where a fence line begins: the newline before three dashes.
  function Fence(s: string): (i: nat)
    ensures i <= |s| && (i < |s| ==> i + 4 <= |s| && s[i..i + 4] == "\n---")
  {
    if |s| < 4 then |s| else if s[..4] == "\n---" then 0 else 1 + Fence(s[1..])
  }

  predicate Dashed(line: string) {
    "---" <= line
  }

  function SkipNewlines(s: string): (r: string)
    ensures |r| <= |s| && (r == "" || (r[0] != '\n' && r[0] != '\r'))
  {
    if s != "" && (s[0] == '\n' || s[0] == '\r') then SkipNewlines(s[1..]) else s
  }

  // ---------- splitting ----------

  predicate Opens(s: string) {
    "---\n" <= s
  }

  // The block at the head of the text ends at the first fence after its own first line; without one there is none.
  predicate HasBlock(s: string) {
    Opens(s) && Fence(s[4..]) < |s[4..]|
  }

  function FirstBlock(s: string): string
    requires HasBlock(s)
  {
    s[..Fence(s[4..]) + 8]
  }

  function AfterBlock(s: string): string
    requires HasBlock(s)
    ensures |AfterBlock(s)| < |s|
  {
    SkipNewlines(s[Fence(s[4..]) + 8..])
  }

  function Split(s: string): (seq<string>, string)
    decreases |s|
  {
    if HasBlock(s) then
      var (blocks, body) := Split(AfterBlock(s));
      ([FirstBlock(s)] + blocks, body)
    else ([], s)
  }

  method SplitStackedFrontmatter(content: string) returns (blocks: seq<string>, body: string)
    ensures (blocks, body) == Split(content)
  {
    blocks, body := [], content;
    assert [] + Split(content).0 == Split(content).0;
    while Opens(body)
      invariant (blocks + Split(body).0, Split(body).1) == Split(content)
      decreases |body|
    {
      var close := Fence(body[4..]);
      if close == |body[4..]| {
        break;
      }
      assert blocks + ([FirstBlock(body)] + Split(AfterBlock(body)).0) == (blocks + [FirstBlock(body)])
          + Split(AfterBlock(body)).0;
      blocks := blocks + [body[..close + 8]];
      body := SkipNewlines(body[close + 8..]);
    }
    assert blocks + [] == blocks;
  }

  // ---------- entries ----------

  datatype Entry = Entry(key: string, lines: seq<string>)

  type Entries = seq<Entry>

  predicate IsKeyChar(c: char) {
    'A' <= c <= 'Z' || 'a' <= c <= 'z' || '0' <= c <= '9' || c == '_' || c == '-'
  }

  function KeyLength(line: string): (i: nat)
    ensures i <= |line| && (forall k | 0 <= k < i :: IsKeyChar(line[k])) && (i < |line| ==> !IsKeyChar(line[i]))
  {
    if line == "" || !IsKeyChar(line[0]) then 0 else 1 + KeyLength(line[1..])
  }

  // The key of a line that opens an entry.
  function KeyOf(line: string): Option<string> {
    var i := KeyLength(line);
    if 0 < i < |line| && line[i] == ':' then Some(line[..i]) else None
  }

  predicate IsSpace(c: char) {
    c == ' ' || '\t' <= c <= '\r' || c == '\U{A0}' || c == '\U{1680}' || '\U{2000}' <= c <= '\U{200A}'
    || c == '\U{2028}' || c == '\U{2029}' || c == '\U{202F}' || c == '\U{205F}' || c == '\U{3000}' || c == '\U{FEFF}'
  }

  predicate Blank(line: string) {
    forall c | c in line :: IsSpace(c)
  }

  function Find(es: Entries, key: string): (i: nat)
    ensures i <= |es| && (i < |es| ==> es[i].key == key) && forall j | 0 <= j < i :: es[j].key != key
  {
    if es == [] || es[0].key == key then 0 else 1 + Find(es[1..], key)
  }

  // An insertion-ordered map: a known key keeps its place.
  function Put(es: Entries, e: Entry): Entries {
    var i := Find(es, e.key);
    if i < |es| then es[i := e] else es + [e]
  }

  function Append(es: Entries, key: string, line: string): Entries {
    var i := Find(es, key);
    if i < |es| then es[i := Entry(key, es[i].lines + [line])] else es
  }

  datatype Parser = Parser(entries: Entries, current: Option<string>)

  function Step(p: Parser, line: string): Parser {
    match KeyOf(line)
    case Some(key) => Parser(Put(p.entries, Entry(key, [line])), Some(key))
    case None => if p.current.Some? then p.(entries := Append(p.entries, p.current.value, line)) else p
  }

  function ParseLines(lines: seq<string>): Parser {
    if lines == [] then Parser([], None) else Step(ParseLines(lines[..|lines| - 1]), lines[|lines| - 1])
  }

  function TrimLines(lines: seq<string>): (r: seq<string>)
    ensures |r| <= |lines| && (lines != [] ==> r != [] && r[0] == lines[0]) && r <= lines
    ensures |r| > 1 ==> !Blank(r[|r| - 1])
  {
    if |lines| > 1 && Blank(lines[|lines| - 1]) then TrimLines(lines[..|lines| - 1]) else lines
  }

  function TrimEntries(es: Entries): (r: Entries)
    ensures |r| == |es| && forall i | 0 <= i < |es| :: r[i] == Entry(es[i].key, TrimLines(es[i].lines))
  {
    seq(|es|, i requires 0 <= i < |es| => Entry(es[i].key, TrimLines(es[i].lines)))
  }

  function DropPrefix(s: string, p: string): string {
    if p <= s then s[|p|..] else s
  }

  function DropSuffix(s: string, p: string): string {
    if |p| <= |s| && s[|s| - |p|..] == p then s[..|s| - |p|] else s
  }

  function Inner(block: string): string {
    DropSuffix(DropPrefix(block, "---\n"), "\n---")
  }

  function ParseEntries(block: string): Entries {
    TrimEntries(ParseLines(Lines(Inner(block))).entries)
  }

  method ReadEntries(block: string) returns (entries: Entries)
    ensures entries == ParseEntries(block)
  {
    var lines := Lines(Inner(block));
    entries := [];
    var current: Option<string> := None;
    var i := 0;
    while i < |lines|
      invariant i <= |lines| && Parser(entries, current) == ParseLines(lines[..i])
    {
      assert lines[..i + 1][..i] == lines[..i];
      var key := KeyOf(lines[i]);
      if key.Some? {
        current := key;
        entries := Put(entries, Entry(key.value, [lines[i]]));
      } else if current.Some? {
        entries := Append(entries, current.value, lines[i]);
      }
      i := i + 1;
    }
    assert lines[..i] == lines;
    ghost var parsed := entries;
    i := 0;
    while i < |entries|
      invariant i <= |entries| == |parsed|
      invariant forall j | 0 <= j < i :: entries[j] == TrimEntries(parsed)[j]
      invariant forall j | i <= j < |entries| :: entries[j] == parsed[j]
    {
      entries := entries[i := Entry(entries[i].key, TrimLines(entries[i].lines))];
      i := i + 1;
    }
    assert entries == TrimEntries(parsed);
  }

  // ---------- merging ----------

  function PutAll(es: Entries, more: Entries): Entries {
    if more == [] then es else Put(PutAll(es, more[..|more| - 1]), more[|more| - 1])
  }

  // The bottom block, then the others from bottom to top.
  function MergeBlocks(blocks: seq<string>): Entries
    requires blocks != []
  {
    if |blocks| == 1 then ParseEntries(blocks[0])
    else PutAll(MergeBlocks(blocks[1..]), ParseEntries(blocks[0]))
  }

  function Flat(es: Entries): seq<string> {
    if es == [] then [] else Flat(es[..|es| - 1]) + es[|es| - 1].lines
  }

  function Printed(es: Entries): string {
    "---\n" + Join(Flat(es)) + "\n---"
  }

  function Merge(content: string): Option<string> {
    var (blocks, body) := Split(content);
    if |blocks| < 2 then None else Some(Printed(MergeBlocks(blocks)) + "\n\n" + body)
  }

  method MergeStackedFrontmatter(content: string) returns (merged: Option<string>)
    ensures merged == Merge(content)
  {
    hide ParseEntries, Split, Put;
    var blocks, body := SplitStackedFrontmatter(content);
    if |blocks| < 2 {
      return None;
    }
    var entries := ReadEntries(blocks[|blocks| - 1]);
    var i: int := |blocks| - 2;
    while i >= 0
      invariant -1 <= i <= |blocks| - 2
      invariant entries == MergeBlocks(blocks[i + 1..])
    {
      var block := ReadEntries(blocks[i]);
      assert blocks[i..][0] == blocks[i] && blocks[i..][1..] == blocks[i + 1..];
      ghost var below := entries;
      var j := 0;
      while j < |block|
        invariant j <= |block| && entries == PutAll(below, block[..j])
      {
        assert block[..j + 1][..j] == block[..j];
        entries := Put(entries, block[j]);
        j := j + 1;
      }
      assert block[..j] == block;
      i := i - 1;
    }
    assert blocks[0..] == blocks;
    merged := Some(Printed(entries) + "\n\n" + body);
  }
}
