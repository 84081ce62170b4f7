/** The laws of the repair: which entries a fusion keeps, that it reads back, and exactly when it is one block. */
module FrontmatterLaws {
  import opened Common
  import opened Frontmatter
  import opened FrontmatterText

  predicate HasKey(es: Entries, key: string) {
    Find(es, key) < |es|
  }

  function Get(es: Entries, key: string): Option<seq<string>> {
    if HasKey(es, key) then Some(es[Find(es, key)].lines) else None
  }

  predicate Distinct(es: Entries) {
    forall i, j | 0 <= i < j < |es| :: es[i].key != es[j].key
  }

  function Keys(es: Entries): (r: seq<string>)
    ensures |r| == |es| && forall i | 0 <= i < |es| :: r[i] == es[i].key
  {
    seq(|es|, i requires 0 <= i < |es| => es[i].key)
  }

  lemma FindIs(es: Entries, key: string, i: nat)
    requires i <= |es| && (i < |es| ==> es[i].key == key) && forall j | 0 <= j < i :: es[j].key != key
    ensures Find(es, key) == i
  {
  }

  // ---------- the ordered map ----------

  lemma PutLaws(es: Entries, e: Entry, key: string)
    ensures Get(Put(es, e), key) == if key == e.key then Some(e.lines) else Get(es, key)
    ensures Distinct(es) ==> Distinct(Put(es, e))
    ensures Keys(es) <= Keys(Put(es, e))
  {
    var after, i := Put(es, e), Find(es, e.key);
    assert forall j | 0 <= j < |es| :: after[j].key == es[j].key;
    if key == e.key {
      FindIs(after, key, i);
    } else {
      var k := Find(es, key);
      FindIs(after, key, if k < |es| then k else |after|);
    }
    assert Keys(after)[..|es|] == Keys(es);
  }

  lemma {:induction false} PutAllLaws(es: Entries, more: Entries, key: string)
    requires Distinct(more)
    ensures Get(PutAll(es, more), key) == if HasKey(more, key) then Get(more, key) else Get(es, key)
    ensures Distinct(es) ==> Distinct(PutAll(es, more))
    ensures Keys(es) <= Keys(PutAll(es, more))
  {
    if more != [] {
      var n := |more| - 1;
      PutAllLaws(es, more[..n], key);
      PutLaws(PutAll(es, more[..n]), more[n], key);
      GetSnoc(more, key);
      hide Get, HasKey, Put;
    }
  }

  lemma GetSnoc(es: Entries, key: string)
    requires es != [] && Distinct(es)
    ensures var n := |es| - 1;
            && HasKey(es, key) == (HasKey(es[..n], key) || es[n].key == key)
            && Get(es, key) == if es[n].key == key then Some(es[n].lines) else Get(es[..n], key)
  {
    var n := |es| - 1;
    var k := Find(es[..n], key);
    if k < n {
      FindIs(es, key, k);
    } else if es[n].key == key {
      FindIs(es, key, n);
    } else {
      FindIs(es, key, |es|);
    }
  }

  // ---------- what parsing gives ----------

  predicate FromLine(e: Entry, lines: seq<string>) {
    e.lines != [] && KeyOf(e.lines[0]) == Some(e.key) && e.lines[0] in lines
  }

  // Continuation lines are lines after the first, and open no entry.
  predicate Continued(e: Entry, lines: seq<string>)
    requires lines != []
  {
    forall j | 1 <= j < |e.lines| :: KeyOf(e.lines[j]).None? && e.lines[j] in lines[1..]
  }

  predicate ParsedFrom(p: Parser, lines: seq<string>)
    requires lines != []
  {
    && Distinct(p.entries) && (p.current.Some? ==> HasKey(p.entries, p.current.value))
    && (forall i | 0 <= i < |p.entries| :: FromLine(p.entries[i], lines) && Continued(p.entries[i], lines))
    && (forall l | l in lines && KeyOf(l).Some? :: HasKey(p.entries, KeyOf(l).value))
  }

  lemma {:induction false} Parsed(lines: seq<string>)
    requires lines != []
    ensures ParsedFrom(ParseLines(lines), lines)
  {
    var n := |lines| - 1;
    var line := lines[n];
    if n == 0 {
      assert lines[..0] == [] && lines == [line];
      FirstParsed(line);
    } else {
      Parsed(lines[..n]);
      hide ParsedFrom, Step;
      StepParsed(ParseLines(lines[..n]), lines[..n], line);
      assert lines[..n] + [line] == lines;
    }
  }

  lemma FirstParsed(line: string)
    ensures ParsedFrom(Step(Parser([], None), line), [line])
  {
  }

  lemma StepParsed(p: Parser, lines: seq<string>, line: string)
    requires lines != [] && ParsedFrom(p, lines)
    ensures ParsedFrom(Step(p, line), lines + [line])
  {
    hide KeyOf;
    var more := lines + [line];
    assert more[1..] == lines[1..] + [line];
    if KeyOf(line).Some? {
      var key := KeyOf(line).value;
      var e := Entry(key, [line]);
      PutLaws(p.entries, e, key);
      PutKeeps(p.entries, e, lines, line);
      forall l | l in more && KeyOf(l).Some? ensures HasKey(Put(p.entries, e), KeyOf(l).value) {
        PutLaws(p.entries, e, KeyOf(l).value);
      }
      hide Put, Find;
    } else if p.current.Some? {
      AppendKeeps(p.entries, p.current.value, lines, line);
      forall l | l in more && KeyOf(l).Some? ensures HasKey(Append(p.entries, p.current.value, line), KeyOf(l).value) {
        AppendKeys(p.entries, p.current.value, line, KeyOf(l).value);
      }
      AppendKeys(p.entries, p.current.value, line, p.current.value);
      hide Append, Find;
    } else {
      WiderAll(p.entries, lines, line);
    }
  }

  lemma Wider(e: Entry, lines: seq<string>, line: string)
    requires lines != [] && FromLine(e, lines) && Continued(e, lines)
    ensures FromLine(e, lines + [line]) && Continued(e, lines + [line])
  {
    hide KeyOf;
    assert (lines + [line])[1..] == lines[1..] + [line];
  }

  lemma WiderAll(es: Entries, lines: seq<string>, line: string)
    requires lines != [] && forall i | 0 <= i < |es| :: FromLine(es[i], lines) && Continued(es[i], lines)
    ensures forall i | 0 <= i < |es| :: FromLine(es[i], lines + [line]) && Continued(es[i], lines + [line])
  {
    forall i | 0 <= i < |es| ensures FromLine(es[i], lines + [line]) && Continued(es[i], lines + [line]) {
      Wider(es[i], lines, line);
    }
  }

  lemma PutKeeps(es: Entries, e: Entry, lines: seq<string>, line: string)
    requires lines != [] && forall i | 0 <= i < |es| :: FromLine(es[i], lines) && Continued(es[i], lines)
    requires e.lines == [line] && KeyOf(line) == Some(e.key)
    ensures var after := Put(es, e);
            forall i | 0 <= i < |after| :: FromLine(after[i], lines + [line]) && Continued(after[i], lines + [line])
  {
    hide KeyOf;
    WiderAll(es, lines, line);
    assert FromLine(e, lines + [line]) && Continued(e, lines + [line]);
    hide FromLine, Continued;
  }

  lemma AppendKeys(es: Entries, key: string, line: string, k: string)
    ensures HasKey(Append(es, key, line), k) == HasKey(es, k)
    ensures Distinct(es) ==> Distinct(Append(es, key, line))
  {
    var after := Append(es, key, line);
    assert |after| == |es| && forall i | 0 <= i < |es| :: after[i].key == es[i].key;
    FindIs(after, k, Find(es, k));
  }

  lemma AppendKeeps(es: Entries, key: string, lines: seq<string>, line: string)
    requires lines != [] && forall i | 0 <= i < |es| :: FromLine(es[i], lines) && Continued(es[i], lines)
    requires HasKey(es, key) && KeyOf(line).None?
    ensures var after := Append(es, key, line);
            forall i | 0 <= i < |after| :: FromLine(after[i], lines + [line]) && Continued(after[i], lines + [line])
  {
    hide KeyOf;
    WiderAll(es, lines, line);
    var i := Find(es, key);
    var grown := Entry(key, es[i].lines + [line]);
    assert FromLine(grown, lines + [line]) && Continued(grown, lines + [line]) by {
      assert (lines + [line])[1..] == lines[1..] + [line];
      assert Continued(es[i], lines + [line]);
    }
    hide FromLine, Continued;
  }

  // ---------- entries that print and read back ----------

  predicate Sound(e: Entry) {
    && e.lines != [] && KeyOf(e.lines[0]) == Some(e.key) && AllPlain(e.lines)
    && (forall j | 1 <= j < |e.lines| :: KeyOf(e.lines[j]).None? && !Dashed(e.lines[j]))
    && (|e.lines| > 1 ==> !Blank(e.lines[|e.lines| - 1]))
  }

  predicate AllSound(es: Entries) {
    Distinct(es) && forall i | 0 <= i < |es| :: Sound(es[i])
  }

  /** Parsing a block of a note gives sound entries, one for every key of its lines. */
  lemma BlockEntries(body: string, key: string)
    requires CleanLines(Lines(body))
    ensures AllSound(TrimEntries(ParseLines(Lines(body)).entries))
    ensures HasKey(TrimEntries(ParseLines(Lines(body)).entries), key)
            <==> exists l :: l in Lines(body) && KeyOf(l) == Some(key)
  {
    var lines := Lines(body);
    LinesPlain(body);
    Parsed(lines);
    hide Lines, ParseLines;
    var es := ParseLines(lines).entries;
    var trimmed := TrimEntries(es);
    forall i | 0 <= i < |es| ensures Sound(trimmed[i]) {
      TrimmedSound(es[i], lines);
    }
    FindIs(trimmed, key, Find(es, key));
    if HasKey(es, key) {
      assert FromLine(es[Find(es, key)], lines);
    }
  }

  lemma TrimmedSound(e: Entry, lines: seq<string>)
    requires lines != [] && FromLine(e, lines) && Continued(e, lines) && CleanLines(lines) && AllPlain(lines)
    ensures Sound(Entry(e.key, TrimLines(e.lines)))
  {
    hide KeyOf, Blank;
    var t := TrimLines(e.lines);
    forall j | 1 <= j < |t| ensures KeyOf(t[j]).None? && !Dashed(t[j]) && Plain(t[j]) {
      assert e.lines[j] in lines[1..];
      var k :| 0 <= k < |lines[1..]| && lines[1..][k] == e.lines[j];
      assert lines[k + 1] == e.lines[j];
    }
    assert t[0] in lines;
    var k :| 0 <= k < |lines| && lines[k] == t[0];
  }

  lemma {:induction false} PutAllSound(es: Entries, more: Entries)
    requires AllSound(es) && AllSound(more)
    ensures AllSound(PutAll(es, more))
  {
    hide Sound;
    if more != [] {
      var n := |more| - 1;
      PutAllSound(es, more[..n]);
      PutLaws(PutAll(es, more[..n]), more[n], "");
    }
  }

  // ---------- reading back ----------

  lemma {:induction false} ParseContinuation(p: Parser, before: seq<string>, lines: seq<string>)
    requires p == ParseLines(before) && p.entries != [] && Distinct(p.entries)
    requires p.current == Some(p.entries[|p.entries| - 1].key)
    requires forall j | 0 <= j < |lines| :: KeyOf(lines[j]).None?
    ensures var n := |p.entries| - 1;
            ParseLines(before + lines)
            == Parser(p.entries[n := Entry(p.entries[n].key, p.entries[n].lines + lines)], p.current)
  {
    hide KeyOf, ParseLines, Step;
    var n := |p.entries| - 1;
    if lines == [] {
      assert before + lines == before;
      assert p.entries[n].lines + [] == p.entries[n].lines;
    } else {
      var m := |lines| - 1;
      ParseContinuation(p, before, lines[..m]);
      ParseOneMore(before, lines);
      StepContinues(p, lines[..m], lines[m]);
      assert lines[..m] + [lines[m]] == lines;
      Regrouped(p.entries[n].lines, lines[..m], [lines[m]]);
    }
  }

  lemma ParseOneMore(before: seq<string>, lines: seq<string>)
    requires lines != []
    ensures ParseLines(before + lines) == Step(ParseLines(before + lines[..|lines| - 1]), lines[|lines| - 1])
  {
    hide Step;
    assert (before + lines)[..|before + lines| - 1] == before + lines[..|lines| - 1];
  }

  // A line without a key goes to the last entry.
  lemma StepContinues(p: Parser, some: seq<string>, line: string)
    requires p.entries != [] && Distinct(p.entries) && p.current == Some(p.entries[|p.entries| - 1].key)
    requires KeyOf(line).None?
    ensures var n := |p.entries| - 1;
            Step(Parser(p.entries[n := Entry(p.entries[n].key, p.entries[n].lines + some)], p.current), line)
            == Parser(p.entries[n := Entry(p.entries[n].key, p.entries[n].lines + some + [line])], p.current)
  {
    hide KeyOf;
    var n := |p.entries| - 1;
    var q := p.entries[n := Entry(p.entries[n].key, p.entries[n].lines + some)];
    FindIs(q, p.current.value, n);
  }

  // An entry of a new key is added whole.
  lemma EntryParses(p: Parser, before: seq<string>, e: Entry)
    requires p == ParseLines(before) && Distinct(p.entries) && !HasKey(p.entries, e.key) && Sound(e)
    ensures ParseLines(before + e.lines) == Parser(p.entries + [e], Some(e.key))
  {
    hide KeyOf, Blank;
    var head, begun := e.lines[0], before + [e.lines[0]];
    ParseOneMore(before, [head]);
    assert before + [] == before;
    var q := Parser(p.entries + [Entry(e.key, [head])], Some(e.key));
    assert ParseLines(begun) == q && Distinct(q.entries);
    hide ParseLines, Distinct;
    ParseContinuation(q, begun, e.lines[1..]);
    assert [head] + e.lines[1..] == e.lines;
    Regrouped(before, [head], e.lines[1..]);
    assert q.entries[|p.entries| := e] == p.entries + [e];
  }

  /** Printing sound entries and parsing the lines gives the same ordered map. */
  lemma {:induction false} ReadBack(es: Entries)
    requires AllSound(es)
    ensures ParseLines(Flat(es)).entries == es
  {
    hide Sound;
    if es != [] {
      var n := |es| - 1;
      ReadBack(es[..n]);
      hide ParseLines;
      FindIs(es[..n], es[n].key, n);
      EntryParses(ParseLines(Flat(es[..n])), Flat(es[..n]), es[n]);
      assert es[..n] + [es[n]] == es;
    }
  }

  lemma TrimNothing(es: Entries)
    requires AllSound(es)
    ensures TrimEntries(es) == es
  {
    hide KeyOf, Blank;
    forall i | 0 <= i < |es| ensures TrimEntries(es)[i] == es[i] {
      assert Sound(es[i]);
    }
  }

  // The lines that a printed map joins; an empty map is one empty line.
  function Shown(es: Entries): (r: seq<string>)
    ensures r != []
  {
    if Flat(es) == [] then [""] else Flat(es)
  }

  lemma {:induction false} FlatPlain(es: Entries)
    requires AllSound(es)
    ensures AllPlain(Flat(es)) && (es != [] ==> Flat(es) != [])
  {
    hide KeyOf, Blank;
    if es != [] {
      FlatPlain(es[..|es| - 1]);
      assert Sound(es[|es| - 1]);
    }
  }

  lemma ShownText(es: Entries)
    requires AllSound(es)
    ensures AllPlain(Shown(es)) && Join(Shown(es)) == Join(Flat(es))
    ensures Lines(Join(Flat(es))) == Shown(es)
  {
    FlatPlain(es);
    LinesOfJoin(Shown(es));
  }

  /** A printed map reads back as itself. */
  lemma PrintedReadsBack(es: Entries)
    requires AllSound(es)
    ensures ParseEntries(Printed(es)) == es
  {
    ShownText(es);
    InnerOf(Join(Flat(es)));
    ReadBack(es);
    TrimNothing(es);
    FlatPlain(es);
    hide Join, Lines, AllSound;
    if es == [] {
      assert KeyOf("") == None;
      assert ParseLines([""]).entries == [];
    }
  }
}
