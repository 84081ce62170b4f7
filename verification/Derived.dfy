/**
 The derived sections of a session note (hooks/derived-sections.mjs): locating a section, merging links into it,
 and detecting links it lacks. A note is the list of its lines, split at line feeds.
 */
module Derived {
  import opened Common
  import opened Frontmatter

  type Note = seq<string>

  // Outside decisions: the link text of a path, and which lines are placeholders of an empty section.
  datatype Config = Config(link: string -> string, isPlaceholder: string -> bool)

  datatype Section = Decisions | Bugs | Learnings

  const SECTIONS: seq<Section> := [Decisions, Bugs, Learnings]

  function Heading(s: Section): string {
    match s
    case Decisions => "## Decisões geradas nesta sessão"
    case Bugs => "## Bugs gerados nesta sessão"
    case Learnings => "## Aprendizados gerados nesta sessão"
  }

  predicate IsHeading(line: string) {
    "## " <= line
  }

  predicate IsItem(line: string) {
    "- " <= line
  }

  // ---------- bounds ----------

  // The first place, from i on, where this heading stands with a line after it.
  function FindHeading(note: Note, heading: string, i: nat): (k: nat)
    requires i <= |note|
    ensures i <= k <= |note| && (k < |note| ==> note[k] == heading && k + 1 < |note|)
    ensures forall j | i <= j < k && j + 1 < |note| :: note[j] != heading
    decreases |note| - i
  {
    if i == |note| then i
    else if note[i] == heading && i + 1 < |note| then i
    else FindHeading(note, heading, i + 1)
  }

  function NextHeading(note: Note, i: nat): (k: nat)
    requires i <= |note|
    ensures i <= k <= |note| && (k < |note| ==> IsHeading(note[k]))
    ensures forall j | i <= j < k :: !IsHeading(note[j])
    decreases |note| - i
  {
    if i == |note| || IsHeading(note[i]) then i else NextHeading(note, i + 1)
  }

  datatype Bounds = Bounds(at: nat, end: nat)

  // A heading counts from the second line on; the line right after it never ends its section.
  function FindSection(note: Note, heading: string): (b: Option<Bounds>)
    ensures b.Some? ==> 1 <= b.value.at && b.value.at + 2 <= b.value.end <= |note|
  {
    if note == [] then None
    else
      var at := FindHeading(note, heading, 1);
      if at == |note| then None else Some(Bounds(at, NextHeading(note, at + 2)))
  }

  // ---------- merging ----------

  function TrimEnd(line: string): (r: string)
    ensures r <= line && (r != "" ==> !IsSpace(r[|r| - 1]))
  {
    if line != "" && IsSpace(line[|line| - 1]) then TrimEnd(line[..|line| - 1]) else line
  }

  // A line that says something: neither blank nor a placeholder.
  predicate Speaks(cfg: Config, line: string) {
    !Blank(TrimEnd(line)) && !cfg.isPlaceholder(TrimEnd(line))
  }

  function Add(items: seq<string>, line: string): seq<string> {
    if line in items then items else items + [line]
  }

  function AddAll(items: seq<string>, lines: seq<string>): seq<string> {
    if lines == [] then items else Add(AddAll(items, lines[..|lines| - 1]), lines[|lines| - 1])
  }

  function Prose(cfg: Config, body: seq<string>): seq<string> {
    if body == [] then []
    else
      var line := TrimEnd(body[|body| - 1]);
      Prose(cfg, body[..|body| - 1]) + if Speaks(cfg, body[|body| - 1]) && !IsItem(line) then [line] else []
  }

  function Bullets(cfg: Config, body: seq<string>): seq<string> {
    if body == [] then []
    else
      var line := TrimEnd(body[|body| - 1]);
      Bullets(cfg, body[..|body| - 1]) + if Speaks(cfg, body[|body| - 1]) && IsItem(line) then [line] else []
  }

  function NewBody(cfg: Config, body: seq<string>, lines: seq<string>): seq<string> {
    var prose := Prose(cfg, body);
    prose + (if prose != [] then [""] else []) + AddAll(AddAll([], Bullets(cfg, body)), lines)
  }

  function Upsert(cfg: Config, note: Note, heading: string, lines: seq<string>): Note {
    var b := FindSection(note, heading);
    if lines == [] || b.None? then note
    else
      note[..b.value.at + 1] + [""] + NewBody(cfg, note[b.value.at + 1..b.value.end], lines) + [""]
      + if b.value.end == |note| then [""] else note[b.value.end..]
  }

  /** Sorts the lines of a section: prose as it is, list items once each. */
  method ReadBody(cfg: Config, body: seq<string>) returns (prose: seq<string>, items: seq<string>)
    ensures prose == Prose(cfg, body) && items == AddAll([], Bullets(cfg, body))
  {
    hide TrimEnd, IsItem, Blank, Add;
    prose, items := [], [];
    var i := 0;
    while i < |body|
      invariant i <= |body| && prose == Prose(cfg, body[..i]) && items == AddAll([], Bullets(cfg, body[..i]))
    {
      assert body[..i + 1][..i] == body[..i];
      var line := TrimEnd(body[i]);
      ghost var known := Bullets(cfg, body[..i]);
      assert (known + [line])[..|known|] == known && known + [] == known;
      if !Blank(line) && !cfg.isPlaceholder(line) {
        if IsItem(line) {
          items := Add(items, line);
        } else {
          prose := prose + [line];
        }
      }
      i := i + 1;
    }
    assert body[..i] == body;
  }

  /** Merges the lines into the section: prose first, then the list items, each once. */
  method UpsertSection(cfg: Config, note: Note, heading: string, lines: seq<string>) returns (next: Note)
    ensures next == Upsert(cfg, note, heading, lines)
  {
    hide Prose, Bullets, Add;
    var at := FindSection(note, heading);
    if lines == [] || at.None? {
      return note;
    }
    var prose, items := ReadBody(cfg, note[at.value.at + 1..at.value.end]);
    ghost var known := items;
    var i := 0;
    while i < |lines|
      invariant i <= |lines| && items == AddAll(known, lines[..i])
    {
      assert lines[..i + 1][..i] == lines[..i];
      items := Add(items, lines[i]);
      i := i + 1;
    }
    assert lines[..i] == lines;
    next := note[..at.value.at + 1] + [""] + (prose + (if prose != [] then [""] else []) + items) + [""]
            + if at.value.end == |note| then [""] else note[at.value.end..];
  }

  // ---------- the three sections ----------

  predicate Below(a: string, b: string)
    decreases |a|
  {
    b != "" && (a == "" || a[0] < b[0] || (a[0] == b[0] && Below(a[1..], b[1..])))
  }

  // Sorted insertion that drops repetitions.
  function Insert(sorted: seq<string>, rel: string): seq<string> {
    if sorted == [] then [rel]
    else if sorted[0] == rel then sorted
    else if Below(rel, sorted[0]) then [rel] + sorted
    else [sorted[0]] + Insert(sorted[1..], rel)
  }

  function Sorted(items: seq<string>): seq<string> {
    if items == [] then [] else Insert(Sorted(items[..|items| - 1]), items[|items| - 1])
  }

  function LinkLine(cfg: Config, rel: string): string {
    "- " + cfg.link(rel)
  }

  function LinkLines(cfg: Config, rels: seq<string>): (r: seq<string>)
    ensures |r| == |rels| && forall i | 0 <= i < |rels| :: r[i] == LinkLine(cfg, rels[i])
  {
    seq(|rels|, i requires 0 <= i < |rels| => LinkLine(cfg, rels[i]))
  }

  function DerivedLines(cfg: Config, items: seq<string>): seq<string> {
    LinkLines(cfg, Sorted(items))
  }

  type Created = Section -> seq<string>

  function ApplyFrom(cfg: Config, note: Note, created: Created, sections: seq<Section>): Note
    decreases sections
  {
    if sections == [] then note
    else
      ApplyFrom(cfg, Upsert(cfg, note, Heading(sections[0]), DerivedLines(cfg, created(sections[0]))), created,
                sections[1..])
  }

  function Apply(cfg: Config, note: Note, created: Created): Note {
    ApplyFrom(cfg, note, created, SECTIONS)
  }

  method ApplyDerivedSections(cfg: Config, note: Note, created: Created) returns (next: Note)
    ensures next == Apply(cfg, note, created)
  {
    next := note;
    var i := 0;
    assert SECTIONS[0..] == SECTIONS;
    while i < |SECTIONS|
      invariant i <= |SECTIONS|
      invariant ApplyFrom(cfg, next, created, SECTIONS[i..]) == Apply(cfg, note, created)
    {
      assert SECTIONS[i..][1..] == SECTIONS[i + 1..];
      next := UpsertSection(cfg, next, Heading(SECTIONS[i]), DerivedLines(cfg, created(SECTIONS[i])));
      i := i + 1;
    }
  }

  // ---------- the detector ----------

  predicate StandsAt(text: string, part: string, i: nat) {
    i + |part| <= |text| && text[i..i + |part|] == part
  }

  predicate Contains(text: string, part: string) {
    exists i: nat | i <= |text| :: StandsAt(text, part, i)
  }

  // Some line of the section, its heading included, contains the text.
  predicate Mentions(section: seq<string>, part: string) {
    exists i :: 0 <= i < |section| && Contains(section[i], part)
  }

  function SectionLines(note: Note, b: Bounds): seq<string>
    requires b.at < b.end <= |note|
  {
    note[b.at..b.end]
  }

  predicate IsListed(cfg: Config, section: seq<string>, rel: string) {
    Mentions(section, cfg.link(rel)) || Mentions(section, rel)
  }

  function Unlisted(cfg: Config, section: seq<string>, rels: seq<string>): seq<string> {
    if rels == [] then []
    else
      Unlisted(cfg, section, rels[..|rels| - 1])
      + if IsListed(cfg, section, rels[|rels| - 1]) then [] else [rels[|rels| - 1]]
  }

  function Missing(cfg: Config, note: Note, s: Section, rels: seq<string>): seq<string> {
    var b := FindSection(note, Heading(s));
    if b.None? then [] else Unlisted(cfg, SectionLines(note, b.value), rels)
  }

  method MissingIn(cfg: Config, note: Note, s: Section, rels: seq<string>) returns (missing: seq<string>)
    ensures missing == Missing(cfg, note, s, rels)
  {
    missing := [];
    var b := FindSection(note, Heading(s));
    if b.None? {
      return;
    }
    var section := SectionLines(note, b.value);
    var i := 0;
    while i < |rels|
      invariant i <= |rels| && missing == Unlisted(cfg, section, rels[..i])
    {
      assert rels[..i + 1][..i] == rels[..i];
      if !Mentions(section, cfg.link(rels[i])) && !Mentions(section, rels[i]) {
        missing := missing + [rels[i]];
      }
      i := i + 1;
    }
    assert rels[..i] == rels;
  }

  datatype Links = Links(decisions: seq<string>, bugs: seq<string>, learnings: seq<string>)

  method MissingDerivedLinks(cfg: Config, note: Note, entry: Created) returns (missing: Links)
    ensures missing == Links(Missing(cfg, note, Decisions, entry(Decisions)), Missing(cfg, note, Bugs, entry(Bugs)),
                             Missing(cfg, note, Learnings, entry(Learnings)))
  {
    var decisions := MissingIn(cfg, note, Decisions, entry(Decisions));
    var bugs := MissingIn(cfg, note, Bugs, entry(Bugs));
    var learnings := MissingIn(cfg, note, Learnings, entry(Learnings));
    missing := Links(decisions, bugs, learnings);
  }
}
