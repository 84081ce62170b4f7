/** Locating a section by lines is the search in the text (hooks/derived-sections.mjs); what the detector compares. */
module DerivedText {
  import opened Common
  import opened Frontmatter
  import opened FrontmatterText
  import opened Derived

  // ---------- lines in the text ----------

  // Where a line begins in the joined text; the end of all lines is one past the text.
  function Offset(lines: seq<string>, j: nat): nat
    requires j <= |lines|
  {
    if j == 0 then 0 else |lines[0]| + 1 + Offset(lines[1..], j - 1)
  }

  lemma {:induction false} LineAt(lines: seq<string>, j: nat)
    requires j < |lines|
    ensures var t := Join(lines);
            && Offset(lines, j) <= |t| && t[Offset(lines, j)..] == Join(lines[j..])
            && (j > 0 ==> Offset(lines, j) > 0 && t[Offset(lines, j) - 1] == '\n')
    decreases |lines|
  {
    if j > 0 {
      LineAt(lines[1..], j - 1);
      assert lines[1..][j - 1..] == lines[j..];
      var t, rest, n := Join(lines), Join(lines[1..]), |lines[0]| + 1;
      assert t == lines[0] + "\n" + rest;
      assert t[n..] == rest;
      assert t[n + Offset(lines[1..], j - 1)..] == rest[Offset(lines[1..], j - 1)..];
    }
  }

  lemma {:induction false} OffsetGrows(lines: seq<string>, i: nat, j: nat)
    requires i < j <= |lines|
    ensures Offset(lines, i) < Offset(lines, j)
    decreases |lines|
  {
    if i > 0 {
      OffsetGrows(lines[1..], i - 1, j - 1);
    }
  }

  lemma {:induction false} OffsetNext(lines: seq<string>, j: nat)
    requires j < |lines|
    ensures Offset(lines, j + 1) == Offset(lines, j) + |lines[j]| + 1
    decreases |lines|
  {
    if j > 0 {
      OffsetNext(lines[1..], j - 1);
    }
  }

  // A line feed of the text is the one in front of some line.
  lemma {:induction false} BreakIs(lines: seq<string>, i: nat) returns (j: nat)
    requires lines != [] && AllPlain(lines) && i < |Join(lines)| && Join(lines)[i] == '\n'
    ensures 1 <= j < |lines| && i == Offset(lines, j) - 1
    decreases |lines|
  {
    var t, n := Join(lines), |lines[0]|;
    assert forall k | 0 <= k < n :: t[k] == lines[0][k] && lines[0][k] != '\n';
    if |lines| > 1 {
      assert t == lines[0] + "\n" + Join(lines[1..]);
      if i == n {
        j := 1;
      } else {
        assert t[i] == Join(lines[1..])[i - n - 1];
        j := BreakIs(lines[1..], i - n - 1);
        j := j + 1;
      }
    }
  }

  lemma MarkHasLine(lines: seq<string>, word: string, i: nat) returns (j: nat)
    requires lines != [] && AllPlain(lines) && StandsAt(Join(lines), "\n" + word, i)
    ensures 1 <= j < |lines| && i == Offset(lines, j) - 1 && word <= Join(lines[j..])
  {
    var t, m := Join(lines), |word| + 1;
    assert t[i..i + m] == "\n" + word;
    assert t[i] == t[i..i + m][0] == '\n';
    j := BreakIs(lines, i);
    LineAt(lines, j);
    hide Join, Offset;
    assert word == t[i..i + m][1..] == t[i + 1..][..|word|];
  }

  lemma LineHasMark(lines: seq<string>, word: string, j: nat)
    requires 1 <= j < |lines| && word <= Join(lines[j..])
    ensures Offset(lines, j) > 0 && StandsAt(Join(lines), "\n" + word, Offset(lines, j) - 1)
  {
    LineAt(lines, j);
    hide Join, Offset;
    WordAfter(Join(lines), Offset(lines, j) - 1, word);
  }

  lemma WordAfter(t: string, i: nat, word: string)
    requires i < |t| && t[i] == '\n' && word <= t[i + 1..]
    ensures StandsAt(t, "\n" + word, i)
  {
    assert t[i..i + |word| + 1] == [t[i]] + t[i + 1..][..|word|];
  }

  // A mark that begins with a line feed stands exactly where some line, with what follows, goes on as the mark does.
  lemma MarkAtLine(lines: seq<string>, word: string, i: nat)
    requires lines != [] && AllPlain(lines)
    ensures StandsAt(Join(lines), "\n" + word, i)
            <==> exists j :: 1 <= j < |lines| && i == Offset(lines, j) - 1 && word <= Join(lines[j..])
  {
    hide *;
    if StandsAt(Join(lines), "\n" + word, i) {
      var j := MarkHasLine(lines, word, i);
    }
    if j :| 1 <= j < |lines| && i == Offset(lines, j) - 1 && word <= Join(lines[j..]) {
      LineHasMark(lines, word, j);
    }
  }

  // A word without line feed opens the text exactly when it opens the first line.
  lemma OpensLine(lines: seq<string>, word: string)
    requires lines != [] && AllPlain(lines) && Plain(word)
    ensures word <= Join(lines) <==> word <= lines[0]
  {
    var t, n := Join(lines), |lines[0]|;
    assert forall k | 0 <= k < |word| :: word[k] != '\n';
    if |lines| > 1 {
      assert t == lines[0] + "\n" + Join(lines[1..]) && t[n] == '\n' && t[..n] == lines[0];
      hide Join;
      if word <= t {
        assert forall k | 0 <= k < |word| :: word[k] == t[k];
        assert |word| <= n;
        assert word == t[..|word|] == lines[0][..|word|];
      }
      if word <= lines[0] {
        assert t[..|word|] == lines[0][..|word|];
      }
    }
  }

  // A word and a line feed open the text exactly when the word is the first line and there is another one.
  lemma OpensWholeLine(lines: seq<string>, word: string)
    requires lines != [] && AllPlain(lines) && Plain(word)
    ensures word + "\n" <= Join(lines) <==> lines[0] == word && |lines| > 1
  {
    if |lines| == 1 {
      assert Join(lines) == lines[0];
      hide Join;
      assert (word + "\n")[|word|] == '\n';
      assert forall k | 0 <= k < |lines[0]| :: lines[0][k] != '\n';
    } else {
      assert Join(lines) == lines[0] + "\n" + Join(lines[1..]);
      hide Join;
      FirstLine(lines[0], Join(lines[1..]), word);
    }
  }

  lemma FirstLine(first: string, rest: string, word: string)
    requires Plain(first) && Plain(word)
    ensures word + "\n" <= first + "\n" + rest <==> first == word
  {
    var t, w := first + "\n" + rest, word + "\n";
    assert t[|first|] == '\n' && w[|word|] == '\n';
    assert forall k | 0 <= k < |first| :: t[k] == first[k] && first[k] != '\n';
    assert forall k | 0 <= k < |word| :: w[k] == word[k] && word[k] != '\n';
    if w <= t {
      assert forall k | 0 <= k <= |word| :: t[k] == w[k];
      assert |word| == |first|;
      assert word == w[..|word|] == t[..|word|] == first;
    }
    if first == word {
      assert t[..|w|] == w;
    }
  }

  // ---------- the section in the text ----------

  function NextMark(): string {
    "\n" + "## "
  }

  function Marker(heading: string): string {
    "\n" + (heading + "\n")
  }

  // The first place of the marker, what follows it, and the next heading from there on, or else the end.
  ghost predicate FoundInText(t: string, heading: string, start: nat, bodyStart: nat, bodyEnd: nat) {
    && StandsAt(t, Marker(heading), start) && (forall i: nat | i < start :: !StandsAt(t, Marker(heading), i))
    && bodyStart == start + |Marker(heading)| <= bodyEnd
    && (forall i: nat | bodyStart <= i < bodyEnd :: !StandsAt(t, NextMark(), i))
    && (|| StandsAt(t, NextMark(), bodyEnd)
        || (bodyEnd == |t| && forall i: nat | bodyStart <= i :: !StandsAt(t, NextMark(), i)))
  }

  lemma MarkerAtLine(note: Note, heading: string, i: nat)
    requires note != [] && AllPlain(note) && Plain(heading)
    ensures StandsAt(Join(note), Marker(heading), i)
            <==> exists j :: 1 <= j < |note| - 1 && i == Offset(note, j) - 1 && note[j] == heading
  {
    MarkAtLine(note, heading + "\n", i);
    forall j | 1 <= j < |note| ensures heading + "\n" <= Join(note[j..]) <==> note[j] == heading && j < |note| - 1 {
      OpensWholeLine(note[j..], heading);
    }
    hide StandsAt, Join, Offset;
  }

  lemma NextAtLine(note: Note, i: nat)
    requires note != [] && AllPlain(note)
    ensures StandsAt(Join(note), NextMark(), i)
            <==> exists j :: 1 <= j < |note| && i == Offset(note, j) - 1 && IsHeading(note[j])
  {
    hide StandsAt, Join, Offset, IsHeading;
    MarkAtLine(note, "## ", i);
    forall j | 1 <= j < |note| ensures "## " <= Join(note[j..]) <==> IsHeading(note[j]) {
      OpensHeading(note[j..]);
    }
  }

  lemma OpensHeading(lines: seq<string>)
    requires lines != [] && AllPlain(lines)
    ensures "## " <= Join(lines) <==> IsHeading(lines[0])
  {
    OpensLine(lines, "## ");
  }

  lemma TextLength(note: Note)
    requires note != []
    ensures Offset(note, |note|) == |Join(note)| + 1
  {
    LineAt(note, |note| - 1);
    OffsetNext(note, |note| - 1);
    assert note[|note| - 1..] == [note[|note| - 1]];
  }

  /** Locating a section by lines finds exactly what the search of the source finds in the text. */
  lemma SectionInText(note: Note, heading: string)
    requires note != [] && AllPlain(note) && Plain(heading)
    ensures var b := FindSection(note, heading);
            && (b.None? <==> forall i: nat :: !StandsAt(Join(note), Marker(heading), i))
            && (b.Some? ==> Offset(note, b.value.at) > 0 && Offset(note, b.value.end) > 0)
            && (b.Some? ==> FoundInText(Join(note), heading, Offset(note, b.value.at) - 1, Offset(note, b.value.at + 1),
                                        Offset(note, b.value.end) - 1))
  {
    hide StandsAt, Join, Offset, IsHeading, AllPlain, Marker, NextMark;
    var b := FindSection(note, heading);
    forall i: nat
      ensures StandsAt(Join(note), Marker(heading), i)
              <==> exists j :: 1 <= j < |note| - 1 && i == Offset(note, j) - 1 && note[j] == heading
    {
      MarkerAtLine(note, heading, i);
    }
    if b.Some? {
      SectionFound(note, heading, b.value);
    } else {
      assert forall j | 1 <= j < |note| - 1 :: note[j] != heading;
    }
    if forall i: nat :: !StandsAt(Join(note), Marker(heading), i) {
      forall j | 1 <= j < |note| - 1 ensures note[j] != heading {
        OffsetGrows(note, 0, j);
        assert !StandsAt(Join(note), Marker(heading), Offset(note, j) - 1);
      }
    }
  }

  lemma OffsetsGrow(note: Note)
    ensures forall i: nat, j: nat | i < j <= |note| :: Offset(note, i) < Offset(note, j)
  {
    forall i: nat, j: nat | i < j <= |note| ensures Offset(note, i) < Offset(note, j) {
      OffsetGrows(note, i, j);
    }
  }

  lemma StartFound(note: Note, heading: string, b: Bounds)
    requires note != [] && AllPlain(note) && Plain(heading) && FindSection(note, heading) == Some(b)
    ensures Offset(note, b.at) > 0 && StandsAt(Join(note), Marker(heading), Offset(note, b.at) - 1)
    ensures forall i: nat | i < Offset(note, b.at) - 1 :: !StandsAt(Join(note), Marker(heading), i)
  {
    OffsetsGrow(note);
    hide StandsAt, Join, Offset, Marker, AllPlain;
    assert Offset(note, 0) < Offset(note, b.at);
    assert note[b.at] == heading && forall j | 1 <= j < b.at && j + 1 < |note| :: note[j] != heading;
    forall i: nat | i <= Offset(note, b.at) - 1
      ensures StandsAt(Join(note), Marker(heading), i)
              <==> exists j :: 1 <= j < |note| - 1 && i == Offset(note, j) - 1 && note[j] == heading
    {
      MarkerAtLine(note, heading, i);
    }
  }

  lemma EndFound(note: Note, from: nat, end: nat)
    requires note != [] && AllPlain(note) && 1 <= from < end <= |note|
    requires (forall j | from < j < end :: !IsHeading(note[j])) && (end < |note| ==> IsHeading(note[end]))
    ensures Offset(note, from) <= Offset(note, end) - 1
    ensures forall i: nat | Offset(note, from) <= i < Offset(note, end) - 1 :: !StandsAt(Join(note), NextMark(), i)
    ensures if end < |note| then StandsAt(Join(note), NextMark(), Offset(note, end) - 1)
            else forall i: nat | Offset(note, from) <= i :: !StandsAt(Join(note), NextMark(), i)
  {
    OffsetsGrow(note);
    hide StandsAt, Join, Offset, NextMark, AllPlain, IsHeading;
    forall i: nat | Offset(note, from) <= i
      ensures StandsAt(Join(note), NextMark(), i)
              <==> exists j :: 1 <= j < |note| && i == Offset(note, j) - 1 && IsHeading(note[j])
    {
      NextAtLine(note, i);
    }
  }

  lemma SectionFound(note: Note, heading: string, b: Bounds)
    requires note != [] && AllPlain(note) && Plain(heading) && FindSection(note, heading) == Some(b)
    ensures Offset(note, b.at) > 0 && Offset(note, b.end) > 0
    ensures FoundInText(Join(note), heading, Offset(note, b.at) - 1, Offset(note, b.at + 1), Offset(note, b.end) - 1)
  {
    StartFound(note, heading, b);
    assert note[b.at] == heading && (forall j | b.at + 1 < j < b.end :: !IsHeading(note[j]))
           && (b.end < |note| ==> IsHeading(note[b.end]));
    EndFound(note, b.at + 1, b.end);
    TextLength(note);
    OffsetNext(note, b.at);
    assert |Marker(heading)| == |heading| + 2;
    hide StandsAt, Join, Offset, Marker, NextMark, AllPlain, IsHeading, FindSection;
  }

  // ---------- what the detector compares ----------

  /** A line contains a text exactly when it is that text with something, or nothing, before and after it. */
  lemma ContainsExactly(text: string, part: string)
    ensures Contains(text, part) <==> exists a, b :: text == a + part + b
  {
    if i: nat :| i <= |text| && StandsAt(text, part, i) {
      assert text == text[..i] + part + text[i + |part|..];
    }
    if a, b :| text == a + part + b {
      assert text[|a|..|a| + |part|] == part;
      assert StandsAt(text, part, |a|);
    }
  }

  // Some line of the section, heading included, contains the link or the path.
  ghost predicate Listed(cfg: Config, note: Note, b: Bounds, rel: string)
    requires b.at < b.end <= |note|
  {
    exists j, x, y :: b.at <= j < b.end && (note[j] == x + cfg.link(rel) + y || note[j] == x + rel + y)
  }

  lemma ListedExactly(cfg: Config, note: Note, b: Bounds, rel: string)
    requires b.at < b.end <= |note|
    ensures IsListed(cfg, SectionLines(note, b), rel) <==> Listed(cfg, note, b, rel)
  {
    var lines := SectionLines(note, b);
    forall i | 0 <= i < |lines|
      ensures Contains(lines[i], cfg.link(rel)) <==> exists x, y :: note[b.at + i] == x + cfg.link(rel) + y
      ensures Contains(lines[i], rel) <==> exists x, y :: note[b.at + i] == x + rel + y
    {
      ContainsExactly(lines[i], cfg.link(rel));
      ContainsExactly(lines[i], rel);
    }
    hide Contains;
    if j, x, y :| b.at <= j < b.end && (note[j] == x + cfg.link(rel) + y || note[j] == x + rel + y) {
      assert lines[j - b.at] == note[j];
    }
  }

  /** Exactly the items that no line of the section mentions are reported, in their order; without the section none. */
  lemma {:induction false} MissingExactly(cfg: Config, note: Note, s: Section, rels: seq<string>, rel: string)
    ensures var b := FindSection(note, Heading(s));
            rel in Missing(cfg, note, s, rels) <==> rel in rels && b.Some? && !Listed(cfg, note, b.value, rel)
    decreases rels
  {
    var b := FindSection(note, Heading(s));
    if b.Some? && rels != [] {
      var n := |rels| - 1;
      MissingExactly(cfg, note, s, rels[..n], rel);
      ListedExactly(cfg, note, b.value, rels[n]);
      assert rel in rels <==> rel in rels[..n] || rel == rels[n];
      hide IsListed, Listed;
    }
  }

  // ---------- what a merge leaves out ----------

  lemma {:induction false} BodySpeaks(cfg: Config, body: seq<string>)
    ensures forall x | x in Prose(cfg, body) || x in Bullets(cfg, body) :: Speaks(cfg, x) && TrimEnd(x) == x
    decreases body
  {
    if body != [] {
      var n := |body| - 1;
      BodySpeaks(cfg, body[..n]);
      TrimTwice(body[n]);
      hide TrimEnd;
    }
  }

  lemma TrimTwice(line: string)
    ensures TrimEnd(TrimEnd(line)) == TrimEnd(line)
  {
  }

  lemma {:induction false} AddedFrom(items: seq<string>, lines: seq<string>, x: string)
    ensures x in AddAll(items, lines) <==> x in items || x in lines
    decreases lines
  {
    if lines != [] {
      AddedFrom(items, lines[..|lines| - 1], x);
      assert x in lines <==> x in lines[..|lines| - 1] || x == lines[|lines| - 1];
    }
  }

  /** A merged section holds no placeholder and no blank line but the one between prose and items, unless it is new. */
  lemma PlaceholdersGo(cfg: Config, body: seq<string>, lines: seq<string>, x: string)
    requires x in NewBody(cfg, body, lines) && x != "" && x !in lines
    ensures !Blank(x) && !cfg.isPlaceholder(x)
  {
    BodySpeaks(cfg, body);
    AddedFrom([], Bullets(cfg, body), x);
    AddedFrom(AddAll([], Bullets(cfg, body)), lines, x);
    hide Prose, Bullets, AddAll, TrimEnd, Blank;
  }
}
