/** The repair of derived sections closes what its detector reports, changes nothing twice and loses nothing. */
module DerivedLaws {
  import opened Common
  import opened Frontmatter
  import opened Derived

  // Link lines are trimmed and no placeholders; a heading is no placeholder either.
  ghost predicate GoodConfig(cfg: Config) {
    && (forall rel :: TrimEnd(LinkLine(cfg, rel)) == LinkLine(cfg, rel) && !cfg.isPlaceholder(LinkLine(cfg, rel)))
    && (forall line | IsHeading(line) :: !cfg.isPlaceholder(line))
  }

  predicate IsDerived(line: string) {
    line == Heading(Decisions) || line == Heading(Bugs) || line == Heading(Learnings)
  }

  // No derived heading is immediately followed by another heading of its level.
  predicate Regular(note: Note) {
    forall i | 1 <= i < |note| - 1 && IsDerived(note[i]) :: !IsHeading(TrimEnd(note[i + 1]))
  }

  // ---------- lines of a body ----------

  lemma {:induction false} TrimTwice(line: string)
    ensures TrimEnd(TrimEnd(line)) == TrimEnd(line)
  {
    if line != "" && IsSpace(line[|line| - 1]) {
      TrimTwice(line[..|line| - 1]);
    }
  }

  // A trimmed line that speaks.
  predicate Settled(cfg: Config, line: string) {
    Speaks(cfg, line) && TrimEnd(line) == line
  }

  predicate AllProse(cfg: Config, lines: seq<string>) {
    forall i | 0 <= i < |lines| :: Settled(cfg, lines[i]) && !IsItem(lines[i])
  }

  predicate AllItems(cfg: Config, lines: seq<string>) {
    forall i | 0 <= i < |lines| :: Settled(cfg, lines[i]) && IsItem(lines[i])
  }

  lemma {:induction false} ProseSplit(cfg: Config, a: seq<string>, b: seq<string>)
    ensures Prose(cfg, a + b) == Prose(cfg, a) + Prose(cfg, b)
    ensures Bullets(cfg, a + b) == Bullets(cfg, a) + Bullets(cfg, b)
  {
    hide Speaks, TrimEnd, IsItem;
    if b == [] {
      assert a + b == a;
    } else {
      ProseSplit(cfg, a, b[..|b| - 1]);
      assert (a + b)[..|a + b| - 1] == a + b[..|b| - 1];
    }
  }

  lemma {:induction false} ProseIs(cfg: Config, body: seq<string>)
    ensures AllProse(cfg, Prose(cfg, body)) && AllItems(cfg, Bullets(cfg, body))
  {
    if body != [] {
      ProseIs(cfg, body[..|body| - 1]);
      TrimTwice(body[|body| - 1]);
      hide TrimEnd, IsItem, Blank;
    }
  }

  lemma {:induction false} ProseOfProse(cfg: Config, lines: seq<string>)
    requires AllProse(cfg, lines)
    ensures Prose(cfg, lines) == lines && Bullets(cfg, lines) == []
  {
    if lines != [] {
      hide IsItem, Blank;
      ProseOfProse(cfg, lines[..|lines| - 1]);
    }
  }

  lemma {:induction false} ProseOfItems(cfg: Config, lines: seq<string>)
    requires AllItems(cfg, lines)
    ensures Prose(cfg, lines) == [] && Bullets(cfg, lines) == lines
  {
    if lines != [] {
      hide IsItem, Blank;
      ProseOfItems(cfg, lines[..|lines| - 1]);
    }
  }

  lemma ProseOfBlank(cfg: Config)
    ensures Prose(cfg, [""]) == [] && Bullets(cfg, [""]) == []
  {
    assert TrimEnd("") == "" && Blank("");
  }

  // ---------- lists without repetition ----------

  predicate NoRepeats(lines: seq<string>) {
    forall i, j | 0 <= i < j < |lines| :: lines[i] != lines[j]
  }

  lemma {:induction false} AddAllLaws(cfg: Config, items: seq<string>, lines: seq<string>)
    ensures items <= AddAll(items, lines)
    ensures forall l :: l in AddAll(items, lines) <==> l in items || l in lines
    ensures NoRepeats(items) ==> NoRepeats(AddAll(items, lines))
    ensures AllItems(cfg, items) && AllItems(cfg, lines) ==> AllItems(cfg, AddAll(items, lines))
  {
    hide Settled, IsItem;
    if lines != [] {
      var n := |lines| - 1;
      AddAllLaws(cfg, items, lines[..n]);
      assert lines[..n] + [lines[n]] == lines;
    }
  }

  lemma {:induction false} AddKnown(items: seq<string>, lines: seq<string>)
    requires forall l | l in lines :: l in items
    ensures AddAll(items, lines) == items
  {
    if lines != [] {
      AddKnown(items, lines[..|lines| - 1]);
    }
  }

  lemma {:induction false} AddFresh(items: seq<string>, lines: seq<string>)
    requires NoRepeats(items + lines)
    ensures AddAll(items, lines) == items + lines
  {
    if lines != [] {
      var n := |lines| - 1;
      assert items + lines == (items + lines[..n]) + [lines[n]];
      forall i | 0 <= i < |items + lines[..n]| ensures (items + lines[..n])[i] != lines[n] {
        assert (items + lines)[i] != (items + lines)[|items| + n];
      }
      assert NoRepeats(items + lines[..n]) by {
        forall i, j | 0 <= i < j < |items + lines[..n]| ensures (items + lines[..n])[i] != (items + lines[..n])[j] {
          assert (items + lines)[i] != (items + lines)[j];
        }
      }
      AddFresh(items, lines[..n]);
    }
  }

  /** A merged body merges into itself. */
  lemma BodySettles(cfg: Config, body: seq<string>, lines: seq<string>, tail: seq<string>)
    requires AllItems(cfg, lines) && (tail == [""] || tail == ["", ""])
    ensures NewBody(cfg, [""] + NewBody(cfg, body, lines) + tail, lines) == NewBody(cfg, body, lines)
  {
    var prose, known := Prose(cfg, body), AddAll([], Bullets(cfg, body));
    var items := AddAll(known, lines);
    ProseIs(cfg, body);
    AddAllLaws(cfg, [], Bullets(cfg, body));
    AddAllLaws(cfg, known, lines);
    AddFresh([], items);
    AddKnown(items, lines);
    assert [] + items == items;
    BodyParts(cfg, prose, items, tail);
  }

  lemma BodyParts(cfg: Config, prose: seq<string>, items: seq<string>, tail: seq<string>)
    requires AllProse(cfg, prose) && AllItems(cfg, items) && (tail == [""] || tail == ["", ""])
    ensures var body := [""] + (prose + (if prose != [] then [""] else []) + items) + tail;
            Prose(cfg, body) == prose && Bullets(cfg, body) == items
  {
    var gap := if prose != [] then [""] else [];
    ProseOfProse(cfg, prose);
    ProseOfItems(cfg, items);
    ProseOfBlank(cfg);
    ProseSplit(cfg, [""], [""]);
    assert [""] + [""] == ["", ""];
    ProseSplit(cfg, [""] + (prose + gap + items), tail);
    ProseSplit(cfg, [""], prose + gap + items);
    ProseSplit(cfg, prose + gap, items);
    ProseSplit(cfg, prose, gap);
    hide Prose, Bullets, AllProse, AllItems;
    assert Prose(cfg, []) == [] && Bullets(cfg, []) == [] by { ProseOfNone(cfg); }
  }

  lemma ProseOfNone(cfg: Config)
    ensures Prose(cfg, []) == [] && Bullets(cfg, []) == []
  {
  }

  // ---------- no heading in a merged body ----------

  predicate NoHeadings(lines: seq<string>) {
    forall i | 0 <= i < |lines| :: !IsHeading(lines[i])
  }

  lemma {:induction false} ProsePlain(cfg: Config, body: seq<string>)
    requires forall i | 0 <= i < |body| :: !IsHeading(TrimEnd(body[i]))
    ensures NoHeadings(Prose(cfg, body))
  {
    if body != [] {
      hide TrimEnd, Speaks, IsHeading, IsItem;
      ProsePlain(cfg, body[..|body| - 1]);
    }
  }

  lemma ItemsPlain(cfg: Config, lines: seq<string>)
    requires AllItems(cfg, lines)
    ensures NoHeadings(lines)
  {
    forall i | 0 <= i < |lines| ensures !IsHeading(lines[i]) {
      assert IsItem(lines[i]) && lines[i][0] == '-';
    }
  }

  lemma NewBodyPlain(cfg: Config, body: seq<string>, lines: seq<string>)
    requires AllItems(cfg, lines) && forall i | 0 <= i < |body| :: !IsHeading(TrimEnd(body[i]))
    ensures NoHeadings(NewBody(cfg, body, lines))
  {
    ProsePlain(cfg, body);
    ProseIs(cfg, body);
    AddAllLaws(cfg, [], Bullets(cfg, body));
    AddAllLaws(cfg, AddAll([], Bullets(cfg, body)), lines);
    ItemsPlain(cfg, AddAll(AddAll([], Bullets(cfg, body)), lines));
    hide Prose, Bullets, AddAll, AllItems;
  }
}
