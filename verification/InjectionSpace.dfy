/** How much the memory may take: exactly when a vault's files let the injected context fit for every backlog. */
module InjectionSpace {
  import opened Common
  import opened Frontmatter
  import opened Injection
  import opened InjectionBudget
  import opened InjectionExact
  import opened InjectionMemory
  import Derived
  import FrontmatterText

  // ---------- escaped attributes ----------

  lemma EscapedBytes(c: char)
    ensures 1 <= Bytes(Escaped(c)) <= 6
    ensures c !in "&\"<>" ==> Escaped(c) == [c]
  {
    BytesBound(Escaped(c));
    if Escaped(c) == [c] {
      assert [c][..0] == "";
    } else {
      AsciiBytes(Escaped(c));
    }
  }

  lemma {:induction false} AttrBytes(s: string)
    ensures |s| <= Bytes(XmlAttr(s)) <= 6 * |s|
  {
    hide Bytes, Escaped;
    if s == "" {
      NoBytes();
    } else {
      AttrBytes(s[..|s| - 1]);
      BytesSplit(XmlAttr(s[..|s| - 1]), Escaped(s[|s| - 1]));
      EscapedBytes(s[|s| - 1]);
    }
  }

  lemma {:induction false} AttrPlain(s: string)
    requires forall c | c in s :: c !in "&\"<>"
    ensures XmlAttr(s) == s
  {
    if s != "" {
      var n := |s| - 1;
      assert s == s[..n] + [s[n]];
      AttrPlain(s[..n]);
      EscapedBytes(s[n]);
      hide Escaped;
    }
  }

  // ---------- sizes ----------

  lemma ClippedShort(detail: string, max: nat)
    requires max >= 20
    ensures |Clipped(detail, max)| <= max
  {
    assert |SUMMARIZED| == 18;
  }

  lemma ErrorShort(rules: Rules, layer: string, reasons: seq<string>)
    requires |layer| <= 8
    ensures |SafeError(rules, layer, reasons)| <= 360 && SafeError(rules, layer, reasons) != ""
  {
    var prefix, suffix := "<wk_memory_error layer=\"", "</wk_memory_error>";
    assert |prefix| <= 30 && |ERROR_REPAIR| <= 43 && |suffix| <= 19;
    ClippedShort(rules.squeeze(Reasons(reasons)), 260);
    hide Clipped, Reasons;
  }

  lemma HeadBytes(revision: string, hash: string)
    ensures Bytes(HeadLine(revision, hash))
            == Bytes(HeadLine("", "")) + Bytes(XmlAttr(revision)) + Bytes(XmlAttr(hash))
    ensures HeadLine(revision, hash) != ""
  {
    var a, b, c := "<brain_memory version=\"2\" revision=\"", "\" state_hash=\"", "\">";
    var r, h := XmlAttr(revision), XmlAttr(hash);
    assert XmlAttr("") == "" && a != "";
    hide XmlAttr;
    BytesFive(a, r, b, h, c);
    BytesFive(a, "", b, "", c);
    NoBytes();
    hide Bytes;
  }

  lemma BytesFive(a: string, b: string, c: string, d: string, e: string)
    ensures Bytes(a + b + c + d + e) == Bytes(a) + Bytes(b) + Bytes(c) + Bytes(d) + Bytes(e)
  {
    hide Bytes;
    BytesSplit(a + b + c + d, e);
    BytesSplit(a + b + c, d);
    BytesSplit(a + b, c);
    BytesSplit(a, b);
  }

  lemma EnvelopeBytes(rules: Rules, revision: string, hash: string)
    ensures Bytes(Envelope(rules, revision, hash))
            == Bytes(Envelope(rules, "", "")) + Bytes(XmlAttr(revision)) + Bytes(XmlAttr(hash))
    ensures Envelope(rules, revision, hash) != ""
  {
    HeadBytes(revision, hash);
    var error := SafeError(rules, "envelope", [TOO_LARGE]);
    hide Bytes, HeadLine, SafeError, XmlAttr;
    ThreeLines(HeadLine(revision, hash), error, "</brain_memory>");
    ThreeLines(HeadLine("", ""), error, "</brain_memory>");
    JoinStarts([HeadLine(revision, hash), error, "</brain_memory>"]);
  }

  lemma ThreeLines(a: string, b: string, c: string)
    ensures Bytes(Join([a, b, c])) == Bytes(a) + Bytes(b) + Bytes(c) + 2
  {
    hide Bytes, Join, Total;
    JoinBytes([a, b, c]);
    TotalTwo(a, b);
    TotalOne(c);
    TotalSplit([a, b], [c]);
    assert [a, b] + [c] == [a, b, c];
  }

  lemma JoinStarts(parts: seq<string>)
    requires parts != [] && parts[0] != ""
    ensures Join(parts) != ""
  {
  }

  lemma {:induction false} KeptSmaller(parts: seq<string>)
    ensures Total(Kept(parts)) <= Total(parts) && |Kept(parts)| <= |parts|
  {
    hide Bytes;
    if parts != [] {
      var n := |parts| - 1;
      KeptSmaller(parts[..n]);
      assert parts == parts[..n] + [parts[n]];
      TotalOne(parts[n]);
      TotalSplit(Kept(parts[..n]), if parts[n] != "" then [parts[n]] else []);
    }
  }

  lemma JoinKeptBytes(parts: seq<string>)
    ensures Bytes(Join(Kept(parts))) <= Total(parts) + |parts|
  {
    KeptSmaller(parts);
    hide Bytes, Kept, Total;
    if Kept(parts) == [] {
      NoBytes();
    } else {
      JoinBytes(Kept(parts));
    }
  }

  // ---------- the memory ----------

  lemma LegacyFits(rules: Rules, f: Files)
    ensures Bytes(LegacyMemory(rules, f)) <= GUARD_BYTES && LegacyMemory(rules, f) != ""
  {
    var core := if f.core == "" then "" else CoreText(rules, f.core);
    var digest := DigestText(rules, f.digest);
    LegacyLayers(rules, f);
    LegacyFrame();
    hide Bytes, CoreText, DigestText, SafeError, Join;
    var parts := ["<brain_memory>", LEGACY_WARNING, core, digest, LEGACY_RECALL, "</brain_memory>"];
    JoinKeptBytes(parts);
    TotalSix("<brain_memory>", LEGACY_WARNING, core, digest, LEGACY_RECALL, "</brain_memory>");
    LegacyStarts(LEGACY_WARNING, core, digest, LEGACY_RECALL, "</brain_memory>");
  }

  lemma LegacyLayers(rules: Rules, f: Files)
    ensures Bytes(if f.core == "" then "" else CoreText(rules, f.core)) <= CORE_BYTES
    ensures Bytes(DigestText(rules, f.digest)) <= DIGEST_BYTES
  {
    NoBytes();
    CoreShort(rules, f.core);
    ErrorShort(rules, "digest", rules.reasons("digest", f.digest));
    BytesBound(SafeError(rules, "digest", rules.reasons("digest", f.digest)));
    hide Bytes, SafeError, CoreText;
  }

  lemma CoreShort(rules: Rules, raw: string)
    ensures Bytes(CoreText(rules, raw)) <= CORE_BYTES
  {
    var reasons := if raw == "" then ["CORE.md ausente"] else rules.reasons("core", raw);
    ErrorShort(rules, "core", reasons);
    BytesBound(SafeError(rules, "core", reasons));
    hide Bytes, SafeError;
  }

  lemma LegacyFrame()
    ensures Bytes(LEGACY_WARNING) <= 4 * 140 && Bytes(LEGACY_RECALL) <= 4 * 100
    ensures Bytes("<brain_memory>") <= 60 && Bytes("</brain_memory>") <= 60
  {
    assert |LEGACY_WARNING| <= 140 && |LEGACY_RECALL| <= 100;
    assert |"<brain_memory>"| == 14 && |"</brain_memory>"| == 15;
    BytesBound(LEGACY_WARNING);
    BytesBound(LEGACY_RECALL);
    BytesBound("<brain_memory>");
    BytesBound("</brain_memory>");
    hide Bytes;
  }

  lemma TotalSix(a: string, b: string, c: string, d: string, e: string, f: string)
    ensures Total([a, b, c, d, e, f]) == Bytes(a) + Bytes(b) + Bytes(c) + Bytes(d) + Bytes(e) + Bytes(f)
  {
    hide Bytes, Total;
    TotalTwo(a, b);
    TotalTwo(c, d);
    TotalTwo(e, f);
    TotalThree([a, b], [c, d], [e, f]);
    assert [a, b] + [c, d] + [e, f] == [a, b, c, d, e, f];
  }

  lemma LegacyStarts(b: string, c: string, d: string, e: string, f: string)
    ensures Join(Kept(["<brain_memory>", b, c, d, e, f])) != ""
  {
    var rest := [b, c, d, e, f];
    assert ["<brain_memory>"] + rest == ["<brain_memory>", b, c, d, e, f];
    KeptSplit(["<brain_memory>"], rest);
    KeptOne("<brain_memory>");
    hide Kept;
    JoinStarts(["<brain_memory>"] + Kept(rest));
  }

  // The envelope that kept only its metadata.
  predicate Replaced(rules: Rules, f: Files) {
    IsV2(rules, f) && TooLarge(rules, f)
  }

  function MetadataBytes(rules: Rules, f: Files): nat {
    Bytes(XmlAttr(Revision(rules, f))) + Bytes(XmlAttr(StateHash(rules, f)))
  }

  /** The memory is within its guard, or it is the bare envelope, as large as its metadata make it. */
  lemma MemoryBytes(rules: Rules, f: Files)
    ensures Brain(rules, f) != ""
    ensures if Replaced(rules, f) then Bytes(Brain(rules, f)) == Bytes(Envelope(rules, "", ""))
            + MetadataBytes(rules, f)
            else Bytes(Brain(rules, f)) <= GUARD_BYTES
  {
    EnvelopeBytes(rules, Revision(rules, f), StateHash(rules, f));
    LegacyFits(rules, f);
    BlockStarts(rules, f);
    hide Bytes, XmlAttr, Envelope, LegacyMemory, MemoryBlock, Revision, StateHash, IsV2;
  }

  lemma BlockStarts(rules: Rules, f: Files)
    ensures MemoryBlock(rules, f) != ""
  {
    HeadBytes(Revision(rules, f), StateHash(rules, f));
    hide HeadLine, CoreText, SharedText, CoreOk, SharedOk, Revision, StateHash, Bytes;
  }

  // ---------- what stands beside it ----------

  // The bytes of everything else that is never cut, line feeds and notices included.
  function Beside(p: Parts): int {
    Bytes(Fixed(p.(brain := "x"))) - 1
  }

  function Room(p: Parts): int {
    TOTAL_BYTES - LEAST_BYTES - 1 - Beside(p)
  }

  lemma BrainFirst(p: Parts, brain: string)
    requires brain != ""
    ensures var rest := Kept([p.profileNotice, p.router, p.focus])
                        + Kept([LESSONS_EVICTED, OTHERS_EVICTED, CURRENT_SUMMARIZED]);
            Bytes(Fixed(p.(brain := brain))) == Bytes(brain) + Total(rest) + |rest|
  {
    var q := p.(brain := brain);
    WithBytes(q, [LESSONS_EVICTED, OTHERS_EVICTED, CURRENT_SUMMARIZED]);
    var more := Kept([LESSONS_EVICTED, OTHERS_EVICTED, CURRENT_SUMMARIZED]);
    assert Fixed(q) == With(q, [LESSONS_EVICTED, OTHERS_EVICTED, CURRENT_SUMMARIZED]);
    hide *;
    var beside := [p.profileNotice, p.router, p.focus];
    assert [brain] + beside == [brain, p.profileNotice, p.router, p.focus];
    KeptSplit([brain], beside);
    KeptOne(brain);
    TotalOne(brain);
    TotalThree([brain], Kept(beside), more);
    TotalSplit(Kept(beside), more);
  }

  lemma OneByte()
    ensures Bytes("x") == 1
  {
    AsciiBytes("x");
  }

  lemma FixedBytes(p: Parts)
    requires p.brain != ""
    ensures Bytes(Fixed(p)) == Bytes(p.brain) + Beside(p)
  {
    BrainFirst(p, p.brain);
    BrainFirst(p, "x");
    OneByte();
    assert p.(brain := p.brain) == p;
    hide Bytes, Fixed, Kept, Total;
  }

  lemma BesideBytes(p: Parts)
    ensures Beside(p) <= Bytes(p.profileNotice) + Bytes(p.router) + Bytes(p.focus) + 4 * 400 + 6
  {
    BrainFirst(p, "x");
    OneByte();
    NoticesShort();
    hide Bytes, Fixed;
    KeptSmaller([p.profileNotice, p.router, p.focus]);
    KeptSmaller([LESSONS_EVICTED, OTHERS_EVICTED, CURRENT_SUMMARIZED]);
    TotalTriple(p.profileNotice, p.router, p.focus);
    TotalTriple(LESSONS_EVICTED, OTHERS_EVICTED, CURRENT_SUMMARIZED);
    TotalSplit(Kept([p.profileNotice, p.router, p.focus]), Kept([LESSONS_EVICTED, OTHERS_EVICTED, CURRENT_SUMMARIZED]));
    hide Kept, Total;
  }

  lemma TotalTriple(a: string, b: string, c: string)
    ensures Total([a, b, c]) == Bytes(a) + Bytes(b) + Bytes(c)
  {
    hide Bytes, Total;
    TotalTwo(a, b);
    TotalOne(c);
    TotalSplit([a, b], [c]);
    assert [a, b] + [c] == [a, b, c];
  }

  lemma NoticesShort()
    ensures Bytes(LESSONS_EVICTED) + Bytes(OTHERS_EVICTED) + Bytes(CURRENT_SUMMARIZED) <= 4 * 400
  {
    assert |LESSONS_EVICTED| <= 120 && |OTHERS_EVICTED| <= 130 && |CURRENT_SUMMARIZED| <= 150;
    BytesBound(LESSONS_EVICTED);
    BytesBound(OTHERS_EVICTED);
    BytesBound(CURRENT_SUMMARIZED);
    hide Bytes;
  }

  // The code of a diagnostic is one of the program's own.
  predicate ShortCode(s: Setup) {
    s.diagnostic.Some? ==> Bytes(XmlAttr(s.diagnostic.value.code)) <= 512
  }

  lemma NoticeBytes(rules: Rules, s: Setup)
    requires ShortCode(s)
    ensures Bytes(ProfileNotice(rules, s.diagnostic)) <= 4 * 420 + 512
  {
    NoBytes();
    if s.diagnostic.Some? {
      var a, b, c := "<wk_profile_error code=\"", "\" fallback=\"GOVERN\" repair=\"wendkeep doctor\">",
          "</wk_profile_error>";
      var detail := Clipped(Trim(rules.squeeze(s.diagnostic.value.message)), 320);
      assert |a| <= 30 && |b| <= 50 && |c| <= 20;
      ClippedShort(Trim(rules.squeeze(s.diagnostic.value.message)), 320);
      hide Bytes, Clipped, XmlAttr, Trim;
      BytesFive(a, XmlAttr(s.diagnostic.value.code), b, detail, c);
      BytesBound(a);
      BytesBound(b);
      BytesBound(c);
      BytesBound(detail);
    }
  }

  lemma FocusBytes(slug: string)
    ensures Bytes(Focus(slug)) <= 4 * LINE_CHARS
  {
    MarkerShort();
    BytesBound(Focus(slug));
    assert |"<session_change>"| == 16 && |"</session_change>"| == 17;
    hide Bytes, FocusText;
  }

  lemma RouterLines(english: bool)
    ensures var lines := if english then ROUTER_EN else ROUTER_PT;
            |lines| == 8 && |lines[0]| <= 12 && |lines[1]| <= 90 && |lines[2]| <= 120 && |lines[3]| <= 290
            && |lines[4]| <= 100 && |lines[5]| <= 100 && |lines[6]| <= 180 && |lines[7]| <= 13
  {
  }

  lemma EightBytes(lines: seq<string>)
    requires |lines| == 8
    ensures Bytes(Join(lines)) <= 4 * (|lines[0]| + |lines[1]| + |lines[2]| + |lines[3]| + |lines[4]| + |lines[5]|
                                       + |lines[6]| + |lines[7]|) + 7
  {
    hide Bytes, Join, Total;
    JoinBytes(lines);
    TotalSix(lines[0], lines[1], lines[2], lines[3], lines[4], lines[5]);
    TotalTwo(lines[6], lines[7]);
    TotalSplit(lines[..6], lines[6..]);
    assert lines[..6] == [lines[0], lines[1], lines[2], lines[3], lines[4], lines[5]]
        && lines[6..] == [lines[6], lines[7]];
    assert lines == lines[..6] + lines[6..];
    LineBytes(lines);
  }

  lemma LineBytes(lines: seq<string>)
    ensures forall i | 0 <= i < |lines| :: Bytes(lines[i]) <= 4 * |lines[i]|
  {
    hide Bytes;
    forall i | 0 <= i < |lines| ensures Bytes(lines[i]) <= 4 * |lines[i]| {
      BytesBound(lines[i]);
    }
  }

  lemma RouterBytes(english: Option<bool>)
    ensures Bytes(Router(english)) <= 4 * 910
  {
    NoBytes();
    if english.Some? {
      RouterLines(english.value);
      hide Bytes, Join;
      EightBytes(if english.value then ROUTER_EN else ROUTER_PT);
    }
  }

  lemma RoomForGuard(rules: Rules, s: Setup, lessons: string)
    requires ShortCode(s)
    ensures Room(PartsOf(rules, s, lessons)) >= GUARD_BYTES
  {
    BesideBytes(PartsOf(rules, s, lessons));
    NoticeBytes(rules, s);
    RouterBytes(s.english);
    FocusBytes(s.sessionChange);
    hide Bytes, Beside, Brain, ProfileNotice, Router, Focus, ShortCode;
  }

  // ---------- the budget of a vault, exactly ----------

  /**
   For a vault as it is read: the output fits for every backlog and all lessons exactly when the memory fits the room
   beside it. It always does while the guard of the memory is not exceeded; beyond it, exactly when the revision and
   the state hash, which the guard keeps, are short enough.
   */
  lemma VaultExactly(rules: Rules, s: Setup, lessons: string)
    ensures var p := PartsOf(rules, s, lessons);
            && (AlwaysFits(p) <==> Bytes(p.brain) <= Room(p))
            && (ShortCode(s) ==>
                  (AlwaysFits(p) <==> !Replaced(rules, s.files)
                                      || MetadataBytes(rules, s.files) <= Room(p) - Bytes(Envelope(rules, "", ""))))
  {
    var p := PartsOf(rules, s, lessons);
    MemoryBytes(rules, s.files);
    hide Bytes, Fixed, AlwaysFits, Brain, ProfileNotice, Router, Focus, Replaced, MetadataBytes, Envelope, Beside;
    FixedBytes(p);
    BudgetExactly(p);
    if ShortCode(s) {
      RoomForGuard(rules, s, lessons);
    }
  }

  // ---------- valid metadata always fit ----------

  lemma {:induction false} FieldShort(lines: seq<string>, key: string)
    requires forall l | l in lines :: |l| <= LINE_CHARS
    ensures FieldIn(lines, key).Some? ==> |FieldIn(lines, key).value| <= LINE_CHARS
  {
    if lines != [] {
      var line := lines[|lines| - 1];
      assert line in lines;
      assert forall l | l in lines[..|lines| - 1] :: l in lines;
      FieldShort(lines[..|lines| - 1], key);
      hide Trim;
    }
  }

  // A piece of a text with short lines has short lines.
  lemma {:induction false} InnerLines(s: string, i: nat)
    requires i <= |s| && ShortLines(s)
    ensures ShortLines(s[i..]) && ShortLines(s[..i])
    decreases |s|
  {
    var n := NewlineAt(s);
    hide ShortLines, NewlineAt;
    if n == |s| {
      AllOneLine(s, i);
    } else {
      FirstLineShort(s, n);
      if i <= n {
        OneLine(s[..i]);
        NewlineMoves(s, i, n);
      } else {
        InnerLines(s[n + 1..], i - n - 1);
        CutRest(s, i, n);
        ShortCons(s[..i], n);
      }
    }
  }

  lemma CutRest(s: string, i: nat, n: nat)
    requires n < i <= |s|
    ensures s[n + 1..][i - n - 1..] == s[i..] && s[n + 1..][..i - n - 1] == s[..i][n + 1..]
  {
  }

  lemma OneLine(s: string)
    requires (forall k | 0 <= k < |s| :: s[k] != '\n') && |s| <= LINE_CHARS
    ensures ShortLines(s)
  {
    assert NewlineAt(s) == |s|;
    assert Lines(s) == [s];
  }

  lemma AllOneLine(s: string, i: nat)
    requires i <= |s| && ShortLines(s) && NewlineAt(s) == |s|
    ensures ShortLines(s[i..]) && ShortLines(s[..i])
  {
    assert s in Lines(s);
    OneLine(s[i..]);
    OneLine(s[..i]);
  }

  lemma FirstLineShort(s: string, n: nat)
    requires n == NewlineAt(s) && n < |s| && ShortLines(s)
    ensures n <= LINE_CHARS && ShortLines(s[n + 1..])
    ensures s[n] == '\n' && forall k | 0 <= k < n :: s[k] != '\n'
  {
    assert Lines(s) == [s[..n]] + Lines(s[n + 1..]);
    hide Lines, NewlineAt;
    ConsMembers(s[..n], Lines(s[n + 1..]));
  }

  lemma ConsMembers(line: string, rest: seq<string>)
    ensures line in [line] + rest && forall l | l in rest :: l in [line] + rest
  {
  }

  // A short first line before short lines.
  lemma ShortCons(t: string, n: nat)
    requires n < |t| && n <= LINE_CHARS && t[n] == '\n' && (forall k | 0 <= k < n :: t[k] != '\n')
    requires ShortLines(t[n + 1..])
    ensures ShortLines(t)
  {
    assert NewlineAt(t) == n;
    assert Lines(t) == [t[..n]] + Lines(t[n + 1..]);
    hide Lines;
  }

  lemma NewlineMoves(s: string, i: nat, n: nat)
    requires i <= n < |s| && s[n] == '\n' && (forall k | 0 <= k < n :: s[k] != '\n')
    requires ShortLines(s[n + 1..]) && n <= LINE_CHARS
    ensures ShortLines(s[i..])
  {
    hide ShortLines;
    assert s[i..][n - i + 1..] == s[n + 1..];
    ShortCons(s[i..], n - i);
  }

  // Numbers are shown in a few digits.
  ghost predicate ShortNumbers(rules: Rules) {
    forall v :: |rules.shownNumber(v)| <= 32
  }

  lemma MetadataShort(rules: Rules, raw: string, key: string)
    requires ShortNumbers(rules) && (raw == "" || ShortLines(raw))
    ensures |Field(rules, raw, key)| <= LINE_CHARS
  {
    assert |"unknown"| == 7;
    var meta := Meta(raw);
    if meta.Some? {
      InnerLines(raw, 4);
      InnerLines(raw[4..], CloseAt(raw[4..]));
      FieldShort(Lines(meta.value), key);
    }
    hide FieldIn, CloseAt, IsInteger;
  }

  lemma EnvelopeShort(rules: Rules)
    ensures Bytes(Envelope(rules, "", "")) <= 4 * 460
  {
    ErrorShort(rules, "envelope", [TOO_LARGE]);
    HeadShort();
    hide Bytes, SafeError, HeadLine;
    ThreeLines(HeadLine("", ""), SafeError(rules, "envelope", [TOO_LARGE]), "</brain_memory>");
    BytesBound(HeadLine("", ""));
    BytesBound(SafeError(rules, "envelope", [TOO_LARGE]));
    BytesBound("</brain_memory>");
    assert |"</brain_memory>"| == 15;
  }

  lemma HeadShort()
    ensures |HeadLine("", "")| <= 70
  {
    assert XmlAttr("") == "";
    assert |"<brain_memory version=\"2\" revision=\""| <= 40 && |"\" state_hash=\""| <= 15;
  }

  /** A vault whose SHARED_MEMORY.md passes its validation, or is absent, always fits. */
  lemma ValidVaultFits(rules: Rules, s: Setup, lessons: string)
    requires ShortCode(s) && ShortNumbers(rules)
    requires s.files.shared == "" || SharedOk(rules, s.files.shared)
    ensures AlwaysFits(PartsOf(rules, s, lessons))
  {
    var f := s.files;
    MetadataShort(rules, f.shared, "revision");
    MetadataShort(rules, f.shared, "state_hash");
    AttrBytes(Revision(rules, f));
    AttrBytes(StateHash(rules, f));
    EnvelopeShort(rules);
    hide Bytes, Field, XmlAttr, AlwaysFits, Room, PartsOf, SharedOk, ShortCode, Replaced, Envelope;
    RoomForGuard(rules, s, lessons);
    VaultExactly(rules, s, lessons);
  }

  // ---------- the files that break the budget ----------

  // A SHARED_MEMORY.md that holds nothing but a state hash of n characters.
  function LongHash(n: nat): string {
    "---\nstate_hash: " + Pad(n) + "\n---"
  }

  lemma LongHashMeta(n: nat)
    ensures Meta(LongHash(n)) == Some("state_hash: " + Pad(n))
  {
    var raw := LongHash(n);
    assert raw[4..] == ("state_hash: " + Pad(n)) + "\n---";
    ClosesAfter("state_hash: " + Pad(n));
    assert raw[4..][..12 + n] == "state_hash: " + Pad(n);
  }

  lemma {:induction false} ClosesAfter(line: string)
    requires forall k | 0 <= k < |line| :: line[k] != '\n'
    ensures CloseAt(line + "\n---") == |line|
    decreases |line|
  {
    var s := line + "\n---";
    if line == "" {
      assert s[..4] == "\n---";
    } else {
      assert s[1..] == line[1..] + "\n---" && s[0] == line[0];
      assert s[..4][0] == line[0];
      ClosesAfter(line[1..]);
    }
  }

  lemma {:induction false} TrimsTo(line: string)
    requires line != "" ==> !IsSpace(line[0]) && !IsSpace(line[|line| - 1])
    ensures Trim(line) == line && Trim(" " + line) == line
  {
    assert IsSpace(' ');
    if line != "" {
      assert (" " + line)[1..] == line;
    } else {
      assert " "[..0] == "";
    }
  }

  lemma LongHashFields(n: nat)
    requires n > 0
    ensures var lines := Lines("state_hash: " + Pad(n));
            FieldIn(lines, "state_hash") == Some(Pad(n)) && FieldIn(lines, "revision") == None
  {
    var line := "state_hash: " + Pad(n);
    NoSecondLine(line);
    NoneBefore(line);
    ColonIs(line);
    assert line[..10] == "state_hash" && line[11..] == " " + Pad(n);
    assert !IsSpace('s') && !IsSpace('h') && !IsSpace('x');
    TrimsTo("state_hash");
    TrimsTo(Pad(n));
    assert "revision" != "state_hash";
    hide Trim, ColonAt, Lines, Pad;
  }

  lemma NoneBefore(line: string)
    ensures [line][..0] == []
  {
  }

  lemma NoSecondLine(line: string)
    requires forall k | 0 <= k < |line| :: line[k] != '\n'
    ensures Lines(line) == [line]
  {
    assert NewlineAt(line) == |line|;
  }

  lemma ColonIs(line: string)
    requires |line| > 10 && line[..10] == "state_hash" && line[10] == ':'
    ensures ColonAt(line) == 10
  {
    assert forall k | 0 <= k < 10 :: line[k] == line[..10][k] != ':';
  }

  lemma PadNoInteger(n: nat)
    requires n > 0
    ensures !IsInteger(Pad(n))
  {
    var s := Pad(n);
    assert s[0] == 'x' && !("-" <= s);
    assert s[0] in s;
    hide Pad;
  }

  lemma PadPlain(n: nat)
    ensures XmlAttr(Pad(n)) == Pad(n) && Bytes(Pad(n)) == n
  {
    var s := Pad(n);
    hide Pad;
    AsciiBytes(s);
    assert 'x' !in "&\"<>";
    AttrPlain(s);
  }

  lemma UnknownPlain()
    ensures XmlAttr("unknown") == "unknown" && Bytes("unknown") == 7
  {
    AttrPlain("unknown");
    AsciiBytes("unknown");
  }

  lemma PadIsText(n: nat)
    requires n > 0
    ensures !IsInteger(Pad(n)) && XmlAttr(Pad(n)) == Pad(n) && Bytes(Pad(n)) == n
    ensures XmlAttr("unknown") == "unknown" && Bytes("unknown") == 7
  {
    hide *;
    PadNoInteger(n);
    PadPlain(n);
    UnknownPlain();
  }

  // The hash is shown as it is, and there is no revision.
  lemma LongHashMetadata(rules: Rules, f: Files, n: nat)
    requires f.shared == LongHash(n) && n > 0
    ensures Revision(rules, f) == "unknown" && StateHash(rules, f) == Pad(n)
    ensures MetadataBytes(rules, f) == 7 + n
  {
    hide Bytes, XmlAttr, FieldIn, Meta, IsInteger, Pad, Lines, LongHash;
    LongHashMeta(n);
    LongHashFields(n);
    PadIsText(n);
  }

  lemma LongHashIsV2(rules: Rules, f: Files, n: nat)
    requires f.shared == LongHash(n)
    ensures IsV2(rules, f)
  {
    LongHashLines(n);
    SignedHash("state_hash: " + Pad(n), ": " + Pad(n));
    hide Lines, SignedLine, SharedOk, LongHash, Pad;
  }

  lemma SignedHash(line: string, rest: string)
    requires line == "state_hash" + rest && ":" <= rest
    ensures SignedLine(line)
  {
    var name := "state_hash";
    assert name <= line && line[|name|..] == rest;
    ColonStays(rest);
    hide TrimStart;
    assert ["schema_version", "event_cursor", "state_hash"][2] == name;
  }

  lemma ColonStays(rest: string)
    requires ":" <= rest
    ensures TrimStart(rest) == rest
  {
    assert rest[0] == ':' && !IsSpace(':');
  }

  lemma LongHashLines(n: nat)
    ensures "state_hash: " + Pad(n) in Lines(LongHash(n))
  {
    var line := "state_hash: " + Pad(n);
    LongHashText(n);
    NoNewlines(n);
    hide *;
    FrontmatterText.LinesCons("---", line + "\n" + "---");
    FrontmatterText.LinesCons(line, "---");
    ConsMembers(line, Lines("---"));
    ConsMembers("---", [line] + Lines("---"));
  }

  lemma LongHashText(n: nat)
    ensures LongHash(n) == "---" + "\n" + ("state_hash: " + Pad(n) + "\n" + "---")
  {
  }

  lemma NoNewlines(n: nat)
    ensures Plain("---") && Plain("state_hash: " + Pad(n))
  {
  }

  lemma LongHashTooLarge(rules: Rules, f: Files, n: nat)
    requires f.shared == LongHash(n) && n > GUARD_BYTES
    ensures TooLarge(rules, f)
  {
    LongHashMetadata(rules, f, n);
    HeadBytes(Revision(rules, f), StateHash(rules, f));
    FirstLineInside(rules, f);
    hide Bytes, HeadLine, MemoryBlock, Revision, StateHash;
  }

  lemma FirstLineInside(rules: Rules, f: Files)
    ensures Bytes(MemoryBlock(rules, f)) >= Bytes(HeadLine(Revision(rules, f), StateHash(rules, f)))
  {
    var core, shared := CoreText(rules, f.core), SharedText(rules, f.shared);
    var head := HeadLine(Revision(rules, f), StateHash(rules, f));
    var attention := if CoreOk(rules, f.core) && SharedOk(rules, f.shared) then "none" else DEGRADED;
    hide Bytes, HeadLine, CoreText, SharedText, CoreOk, SharedOk, Revision, StateHash, Join;
    JoinInside([head, "<wk_memory_contract>", CONTRACT, "</wk_memory_contract>",
                "<wk_core authority=\"canonical\">", core, "</wk_core>",
                "<wk_shared_state authority=\"operational\">", shared, "</wk_shared_state>",
                "<wk_memory_attention>", attention, "</wk_memory_attention>", "<wk_recall>", RECALL_HINT, "</wk_recall>",
                "</brain_memory>"]);
  }

  lemma JoinInside(parts: seq<string>)
    requires parts != []
    ensures Bytes(Join(parts)) >= Bytes(parts[0])
  {
    hide Bytes;
    JoinBytes(parts);
    TotalOne(parts[0]);
    TotalSplit([parts[0]], parts[1..]);
    assert [parts[0]] + parts[1..] == parts;
  }

  /**
   A SHARED_MEMORY.md with one long state hash: beyond the guard the context fits for every backlog exactly while the
   hash is within the room, and from the whole budget on it fits for none.
   */
  lemma LongHashExactly(rules: Rules, s: Setup, lessons: string, n: nat)
    requires s.files.shared == LongHash(n) && n > GUARD_BYTES
    ensures var p := PartsOf(rules, s, lessons);
            && (AlwaysFits(p) <==> Bytes(Envelope(rules, "", "")) + 7 + n <= Room(p))
            && (n >= TOTAL_BYTES ==> forall b :: !Fits(Injected(p, b)))
  {
    var p := PartsOf(rules, s, lessons);
    LongHashIsV2(rules, s.files, n);
    LongHashTooLarge(rules, s.files, n);
    LongHashMetadata(rules, s.files, n);
    MemoryBytes(rules, s.files);
    VaultExactly(rules, s, lessons);
    hide Bytes, AlwaysFits, Room, Brain, ProfileNotice, Router, Focus, Envelope, MetadataBytes, IsV2, TooLarge,
        LongHash;
    if n >= TOTAL_BYTES {
      forall b ensures !Fits(Injected(p, b)) {
        BrainInside(p);
        BudgetLost(p, b);
      }
    }
  }

  lemma BrainInside(p: Parts)
    requires p.brain != ""
    ensures Bytes(With(p, [])) >= Bytes(p.brain)
  {
    WithBytes(p, []);
    var beside := [p.profileNotice, p.router, p.focus];
    assert [p.brain] + beside == [p.brain, p.profileNotice, p.router, p.focus];
    KeptSplit([p.brain], beside);
    KeptOne(p.brain);
    TotalOne(p.brain);
    TotalThree([p.brain], Kept(beside), Kept([]));
    hide Bytes, Kept, Total;
  }
}
