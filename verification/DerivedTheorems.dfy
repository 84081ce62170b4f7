/** The three sections together: repair closes what the detector reports, is idempotent and loses nothing. */
module DerivedTheorems {
  import opened Common
  import opened Frontmatter
  import opened Derived
  import opened DerivedLaws
  import opened DerivedRepair

  // ---------- what is listed ----------

  lemma {:induction false} InsertMembers(sorted: seq<string>, rel: string, x: string)
    ensures x in Insert(sorted, rel) <==> x in sorted || x == rel
  {
    if sorted != [] && sorted[0] != rel && !Below(rel, sorted[0]) {
      InsertMembers(sorted[1..], rel, x);
      assert sorted == [sorted[0]] + sorted[1..];
    }
    hide Below;
  }

  lemma {:induction false} SortedMembers(items: seq<string>, x: string)
    ensures x in Sorted(items) <==> x in items
  {
    if items != [] {
      SortedMembers(items[..|items| - 1], x);
      InsertMembers(Sorted(items[..|items| - 1]), items[|items| - 1], x);
      assert items == items[..|items| - 1] + [items[|items| - 1]];
    }
  }

  lemma DerivedMembers(cfg: Config, items: seq<string>, rel: string)
    requires rel in items
    ensures LinkLine(cfg, rel) in DerivedLines(cfg, items)
  {
    SortedMembers(items, rel);
    var i :| 0 <= i < |Sorted(items)| && Sorted(items)[i] == rel;
    assert DerivedLines(cfg, items)[i] == LinkLine(cfg, rel);
  }

  lemma LineMentions(cfg: Config, section: seq<string>, rel: string)
    requires LinkLine(cfg, rel) in section
    ensures IsListed(cfg, section, rel)
  {
    var i :| 0 <= i < |section| && section[i] == LinkLine(cfg, rel);
    assert StandsAt(section[i], cfg.link(rel), 2);
    assert Contains(section[i], cfg.link(rel));
  }

  lemma {:induction false} AllListed(cfg: Config, section: seq<string>, rels: seq<string>)
    ensures Unlisted(cfg, section, rels) == [] <==> forall r | r in rels :: IsListed(cfg, section, r)
  {
    hide IsListed;
    if rels != [] {
      AllListed(cfg, section, rels[..|rels| - 1]);
      assert rels == rels[..|rels| - 1] + [rels[|rels| - 1]];
    }
  }

  lemma BodyHasLines(cfg: Config, note: Note, b: Bounds, lines: seq<string>, line: string)
    requires b.at < b.end <= |note| && line in lines
    ensures line in MergedBody(cfg, note, b, lines)
  {
    var body := note[b.at + 1..b.end];
    AddAllLaws(cfg, AddAll([], Bullets(cfg, body)), lines);
    hide *;
    var items := AddAll(AddAll([], Bullets(cfg, body)), lines);
    assert line in items;
    NewBodyEnds(cfg, body, lines);
    MergedHolds(cfg, note, b, lines, line);
  }

  lemma NewBodyEnds(cfg: Config, body: seq<string>, lines: seq<string>)
    ensures forall l | l in AddAll(AddAll([], Bullets(cfg, body)), lines) :: l in NewBody(cfg, body, lines)
  {
    hide AddAll, Prose, Bullets;
  }

  lemma MergedHolds(cfg: Config, note: Note, b: Bounds, lines: seq<string>, line: string)
    requires b.at < b.end <= |note| && line in NewBody(cfg, note[b.at + 1..b.end], lines)
    ensures line in MergedBody(cfg, note, b, lines)
  {
    hide NewBody;
    assert line in [""] + NewBody(cfg, note[b.at + 1..b.end], lines);
  }

  /** Where a section stands, the detector finds nothing missing in it. */
  lemma StandsCloses(cfg: Config, note: Note, s: Section, items: seq<string>)
    requires Stands(cfg, note, Heading(s), DerivedLines(cfg, items))
    ensures Missing(cfg, note, s, items) == []
  {
    hide Stands, MergedBody, FindSection, IsListed, DerivedLines;
    StandsExactly(cfg, note, Heading(s), DerivedLines(cfg, items));
    var found := FindSection(note, Heading(s));
    if found.Some? {
      var b := found.value;
      var section := SectionLines(note, b);
      forall r | r in items ensures IsListed(cfg, section, r) {
        DerivedMembers(cfg, items, r);
        BodyHasLines(cfg, note, b, DerivedLines(cfg, items), LinkLine(cfg, r));
        assert section == [note[b.at]] + note[b.at + 1..b.end];
        LineMentions(cfg, section, r);
      }
      AllListed(cfg, section, items);
    }
  }

  // ---------- all three sections ----------

  predicate StandsFor(cfg: Config, note: Note, created: Created, s: Section) {
    Stands(cfg, note, Heading(s), DerivedLines(cfg, created(s)))
  }

  predicate AllStand(cfg: Config, note: Note, created: Created) {
    StandsFor(cfg, note, created, Decisions) && StandsFor(cfg, note, created, Bugs)
        && StandsFor(cfg, note, created, Learnings)
  }

  function Merged(cfg: Config, note: Note, created: Created, s: Section): Note {
    Upsert(cfg, note, Heading(s), DerivedLines(cfg, created(s)))
  }

  lemma ApplySteps(cfg: Config, note: Note, created: Created)
    ensures Apply(cfg, note, created)
            == Merged(cfg, Merged(cfg, Merged(cfg, note, created, Decisions), created, Bugs), created, Learnings)
  {
    hide Upsert, DerivedLines;
    assert SECTIONS[1..] == [Bugs, Learnings] && SECTIONS[1..][1..] == [Learnings] && SECTIONS[1..][1..][1..] == [];
  }

  lemma HeadingsDiffer(s: Section, t: Section)
    ensures IsDerived(Heading(s)) && (Heading(s) == Heading(t) ==> s == t)
  {
    assert Heading(Decisions)[3] == 'D' && Heading(Bugs)[3] == 'B' && Heading(Learnings)[3] == 'A';
  }

  // The section has nothing to receive, is absent, or has no heading of its level right after its own.
  predicate CalmFor(cfg: Config, note: Note, created: Created, s: Section) {
    Calm(note, Heading(s), DerivedLines(cfg, created(s)))
  }

  predicate Tidy(cfg: Config, note: Note, created: Created) {
    CalmFor(cfg, note, created, Decisions) && CalmFor(cfg, note, created, Bugs)
        && CalmFor(cfg, note, created, Learnings)
  }

  lemma RegularTidy(cfg: Config, note: Note, created: Created)
    requires Regular(note)
    ensures Tidy(cfg, note, created)
  {
    hide Regular, IsDerived, Undisturbed, FindSection, Heading, DerivedLines;
    forall s: Section ensures CalmFor(cfg, note, created, s) {
      HeadingsDiffer(s, s);
      if FindSection(note, Heading(s)).Some? {
        RegularUndisturbed(note, Heading(s));
      }
    }
  }

  lemma MergedStands(cfg: Config, note: Note, created: Created, s: Section, t: Section)
    requires GoodConfig(cfg) && CalmFor(cfg, note, created, s)
    ensures StandsFor(cfg, Merged(cfg, note, created, s), created, s)
    ensures s != t ==> (CalmFor(cfg, Merged(cfg, note, created, s), created, t) <==> CalmFor(cfg, note, created, t))
    ensures CalmFor(cfg, note, created, t) && StandsFor(cfg, note, created, t) ==>
              StandsFor(cfg, Merged(cfg, note, created, s), created, t)
  {
    hide Stands, Upsert, GoodConfig, AllItems, IsDerived, DerivedLines, Heading, FindSection, Undisturbed, Calm;
    HeadingsDiffer(s, t);
    HeadingsDiffer(t, s);
    LinesAreItems(cfg, created(s));
    OneStands(cfg, note, Heading(s), DerivedLines(cfg, created(s)));
    if s != t {
      OthersCalm(cfg, note, Heading(s), DerivedLines(cfg, created(s)), Heading(t), DerivedLines(cfg, created(t)));
      if CalmFor(cfg, note, created, t) && StandsFor(cfg, note, created, t) {
        OthersStand(cfg, note, Heading(s), DerivedLines(cfg, created(s)), Heading(t), DerivedLines(cfg, created(t)));
      }
    }
  }

  lemma OneStands(cfg: Config, note: Note, heading: string, lines: seq<string>)
    requires IsDerived(heading) && AllItems(cfg, lines) && Calm(note, heading, lines)
    ensures Stands(cfg, Upsert(cfg, note, heading, lines), heading, lines)
  {
    hide Stands, Upsert, AllItems, IsDerived, FindSection, Undisturbed, MergedBody;
    UpsertNothing(cfg, note, heading, lines);
    if FindSection(note, heading).Some? && lines != [] {
      UpsertStands(cfg, note, heading, lines);
    } else {
      StandsExactly(cfg, note, heading, lines);
    }
  }

  lemma AppliedStands(cfg: Config, note: Note, created: Created)
    requires GoodConfig(cfg) && Tidy(cfg, note, created)
    ensures AllStand(cfg, Apply(cfg, note, created), created)
  {
    hide StandsFor, Merged, CalmFor, GoodConfig, Apply;
    ApplySteps(cfg, note, created);
    var one := Merged(cfg, note, created, Decisions);
    var two := Merged(cfg, one, created, Bugs);
    MergedStands(cfg, note, created, Decisions, Bugs);
    MergedStands(cfg, note, created, Decisions, Learnings);
    StandsIsCalm(cfg, one, created, Decisions);
    MergedStands(cfg, one, created, Bugs, Decisions);
    MergedStands(cfg, one, created, Bugs, Learnings);
    StandsIsCalm(cfg, two, created, Decisions);
    StandsIsCalm(cfg, two, created, Bugs);
    MergedStands(cfg, two, created, Learnings, Decisions);
    MergedStands(cfg, two, created, Learnings, Bugs);
  }

  // A section that stands is calm: its merged body opens with an empty line.
  lemma StandsIsCalm(cfg: Config, note: Note, created: Created, s: Section)
    requires StandsFor(cfg, note, created, s)
    ensures CalmFor(cfg, note, created, s)
  {
    hide Stands, DerivedLines, Heading, NewBody, IsHeading;
    var heading, lines := Heading(s), DerivedLines(cfg, created(s));
    StandsExactly(cfg, note, heading, lines);
    if FindSection(note, heading).Some? && lines != [] {
      var b := FindSection(note, heading).value;
      SectionShape(note, heading);
      hide FindSection;
      assert note[b.at + 1..b.end][0] == MergedBody(cfg, note, b, lines)[0] == "";
      assert note[b.at + 1] == "";
      EmptyNoHeading();
    }
  }

  lemma EmptyNoHeading()
    ensures !IsHeading(TrimEnd(""))
  {
  }

  /**
   After the repair the detector reports nothing for any section, unless a section that receives links was disturbed.
   */
  lemma RepairCloses(cfg: Config, note: Note, created: Created, s: Section)
    requires GoodConfig(cfg) && Tidy(cfg, note, created)
    ensures Missing(cfg, Apply(cfg, note, created), s, created(s)) == []
  {
    hide Stands, Apply, Tidy, GoodConfig, DerivedLines;
    AppliedStands(cfg, note, created);
    StandsCloses(cfg, Apply(cfg, note, created), s, created(s));
  }

  /** Repairing twice is repairing once. */
  lemma RepairOnce(cfg: Config, note: Note, created: Created)
    requires GoodConfig(cfg) && Tidy(cfg, note, created)
    ensures Apply(cfg, Apply(cfg, note, created), created) == Apply(cfg, note, created)
  {
    var next := Apply(cfg, note, created);
    AppliedStands(cfg, note, created);
    ApplySteps(cfg, next, created);
    hide Apply, Tidy, GoodConfig, DerivedLines, Upsert;
  }

  // ---------- nothing is lost ----------

  predicate Survives(note: Note, line: string) {
    line in note || TrimEnd(line) in note
  }

  lemma {:induction false} BodySurvives(cfg: Config, body: seq<string>, line: string)
    requires line in body && Speaks(cfg, line)
    ensures TrimEnd(line) in Prose(cfg, body) || TrimEnd(line) in Bullets(cfg, body)
  {
    var n := |body| - 1;
    if line in body[..n] {
      BodySurvives(cfg, body[..n], line);
    } else {
      assert line == body[n];
    }
  }

  lemma NewBodySurvives(cfg: Config, body: seq<string>, lines: seq<string>, line: string)
    requires line in body && Speaks(cfg, line)
    ensures TrimEnd(line) in NewBody(cfg, body, lines)
  {
    BodySurvives(cfg, body, line);
    AddAllLaws(cfg, [], Bullets(cfg, body));
    AddAllLaws(cfg, AddAll([], Bullets(cfg, body)), lines);
    hide Prose, Bullets, AddAll, TrimEnd, Speaks;
  }

  /** One merge keeps every line outside the section as it is, and every line inside that says something, trimmed. */
  lemma MergeKeeps(cfg: Config, note: Note, heading: string, lines: seq<string>, line: string)
    requires line in note && Speaks(cfg, line)
    ensures Survives(Upsert(cfg, note, heading, lines), line)
    ensures FindSection(note, heading).Some? && lines != [] ==>
              var b, next := FindSection(note, heading).value, Upsert(cfg, note, heading, lines);
              note[..b.at + 1] <= next && |note| - b.end <= |next| && next[|next| - (|note| - b.end)..] == note[b.end..]
  {
    hide TrimEnd, Speaks, FindSection, NewBody, Upsert;
    UpsertNothing(cfg, note, heading, lines);
    if FindSection(note, heading).Some? && lines != [] {
      SectionShape(note, heading);
      var b := FindSection(note, heading).value;
      UpsertReplaces(cfg, note, heading, lines);
      var next := Upsert(cfg, note, heading, lines);
      var body := note[b.at + 1..b.end];
      assert note == note[..b.at + 1] + body + note[b.end..];
      if line in body {
        NewBodySurvives(cfg, body, lines, line);
        assert TrimEnd(line) in MergedBody(cfg, note, b, lines);
      }
    }
  }

  lemma SectionShape(note: Note, heading: string)
    ensures FindSection(note, heading).Some? ==>
              var b := FindSection(note, heading).value; 1 <= b.at && b.at + 2 <= b.end <= |note|
  {
  }

  lemma MergedSurvives(cfg: Config, note: Note, created: Created, s: Section, line: string)
    requires Survives(note, line) && Speaks(cfg, line)
    ensures Survives(Merged(cfg, note, created, s), line)
  {
    TrimTwice(line);
    assert Speaks(cfg, TrimEnd(line));
    hide Upsert, DerivedLines, Speaks, TrimEnd, Heading;
    var kept := if line in note then line else TrimEnd(line);
    MergeKeeps(cfg, note, Heading(s), DerivedLines(cfg, created(s)), kept);
  }

  /** Every line that says something survives the whole repair, at most trimmed at its end, in any note. */
  lemma NothingLost(cfg: Config, note: Note, created: Created, line: string)
    requires line in note && Speaks(cfg, line)
    ensures Survives(Apply(cfg, note, created), line)
  {
    hide Merged, Speaks, Apply;
    ApplySteps(cfg, note, created);
    MergedSurvives(cfg, note, created, Decisions, line);
    MergedSurvives(cfg, Merged(cfg, note, created, Decisions), created, Bugs, line);
    MergedSurvives(cfg, Merged(cfg, Merged(cfg, note, created, Decisions), created, Bugs), created, Learnings, line);
  }

  // ---------- exactly when a merge closes its section ----------

  // Neither the heading nor an empty line lists one of the items by chance.
  predicate Foreign(cfg: Config, s: Section, items: seq<string>) {
    forall r | r in items :: !IsListed(cfg, [Heading(s), ""], r)
  }

  lemma FirstProse(cfg: Config, body: seq<string>)
    requires body != [] && IsHeading(TrimEnd(body[0])) && GoodConfig(cfg)
    ensures Prose(cfg, body) != [] && Prose(cfg, body)[0] == TrimEnd(body[0])
  {
    var line := TrimEnd(body[0]);
    assert line[0] == '#' && !IsSpace('#') && '#' in line && !IsItem(line);
    assert body == [body[0]] + body[1..];
    ProseSplit(cfg, [body[0]], body[1..]);
    assert Prose(cfg, [body[0]]) == [line];
  }

  lemma ShortBody(cfg: Config, note: Note, b: Bounds, lines: seq<string>)
    requires GoodConfig(cfg) && b.at + 1 < b.end <= |note| && IsHeading(TrimEnd(note[b.at + 1]))
    ensures var body := MergedBody(cfg, note, b, lines);
            |body| >= 2 && body[0] == "" && body[1] == TrimEnd(note[b.at + 1])
  {
    FirstProse(cfg, note[b.at + 1..b.end]);
    hide TrimEnd, GoodConfig, IsHeading, AddAll, Bullets, Prose;
  }

  // With a heading right after its own, the merged section ends before the merged lines.
  lemma ShortSection(cfg: Config, note: Note, s: Section, lines: seq<string>)
    requires GoodConfig(cfg) && FindSection(note, Heading(s)).Some? && lines != []
    requires IsHeading(TrimEnd(note[FindSection(note, Heading(s)).value.at + 1]))
    ensures var b, next := FindSection(note, Heading(s)).value, Upsert(cfg, note, Heading(s), lines);
            FindSection(next, Heading(s)) == Some(Bounds(b.at, b.at + 2)) && b.at + 2 <= |next|
            && next[b.at..b.at + 2] == [Heading(s), ""]
  {
    hide Upsert, TrimEnd, MergedBody, GoodConfig, Heading, IsHeading;
    var heading := Heading(s);
    var b := FindSection(note, heading).value;
    var at, body := b.at, MergedBody(cfg, note, b, lines);
    UpsertReplaces(cfg, note, heading, lines);
    ShortBody(cfg, note, b, lines);
    var next := Replaced(note, at, b.end, body);
    forall j | 0 <= j <= at ensures next[j] == note[j] {
      ReplacedAt(note, at, b.end, body, j);
    }
    ReplacedAt(note, at, b.end, body, at + 1);
    ReplacedAt(note, at, b.end, body, at + 2);
    FindHeadingIs(next, heading, 1, at);
    NextHeadingIs(next, at + 2, at + 2);
  }

  /** Merging closes a present section exactly when no heading of its level follows its own heading at once. */
  lemma ClosesExactly(cfg: Config, note: Note, s: Section, items: seq<string>)
    requires GoodConfig(cfg) && FindSection(note, Heading(s)).Some? && items != [] && Foreign(cfg, s, items)
    ensures Missing(cfg, Upsert(cfg, note, Heading(s), DerivedLines(cfg, items)), s, items) == []
            <==> Undisturbed(note, Heading(s))
  {
    var heading, lines := Heading(s), DerivedLines(cfg, items);
    var at := FindSection(note, heading).value.at;
    var next := Upsert(cfg, note, heading, lines);
    DerivedMembers(cfg, items, items[0]);
    hide Upsert, TrimEnd, IsListed, DerivedLines, GoodConfig, Stands, AllItems, Heading, IsHeading;
    if IsHeading(TrimEnd(note[at + 1])) {
      ShortSection(cfg, note, s, lines);
      AllListed(cfg, [heading, ""], items);
      assert SectionLines(next, Bounds(at, at + 2)) == [heading, ""];
      assert items[0] in items;
    } else {
      hide FindSection;
      HeadingsDiffer(s, s);
      LinesAreItems(cfg, items);
      UpsertStands(cfg, note, heading, lines);
      StandsCloses(cfg, next, s, items);
    }
  }

  // ---------- exactly when the whole repair closes every section ----------

  predicate CutFor(note: Note, s: Section) {
    Severed(note, Heading(s))
  }

  lemma CutMisses(cfg: Config, note: Note, s: Section, items: seq<string>)
    requires CutFor(note, s) && items != [] && Foreign(cfg, s, items)
    ensures Missing(cfg, note, s, items) != []
  {
    hide FindSection, IsListed, Heading;
    var b := FindSection(note, Heading(s)).value;
    SectionShape(note, Heading(s));
    assert SectionLines(note, b) == [Heading(s), ""];
    AllListed(cfg, [Heading(s), ""], items);
    assert items[0] in items;
  }

  lemma NoItems(cfg: Config, items: seq<string>)
    ensures items == [] <==> DerivedLines(cfg, items) == []
  {
    if items != [] {
      DerivedMembers(cfg, items, items[0]);
    }
  }

  // A disturbed merge cuts its own section short.
  lemma RoughCuts(cfg: Config, note: Note, created: Created, s: Section)
    requires GoodConfig(cfg) && !CalmFor(cfg, note, created, s)
    ensures CutFor(Merged(cfg, note, created, s), s) && created(s) != []
  {
    NoItems(cfg, created(s));
    hide Upsert, GoodConfig, Heading, DerivedLines, IsHeading, TrimEnd;
    var b := FindSection(note, Heading(s)).value;
    SectionShape(note, Heading(s));
    hide FindSection;
    ShortSection(cfg, note, s, DerivedLines(cfg, created(s)));
    var next := Merged(cfg, note, created, s);
    assert next[b.at..b.at + 2][0] == next[b.at] && next[b.at..b.at + 2][1] == next[b.at + 1];
  }

  lemma CutRemains(cfg: Config, note: Note, created: Created, s: Section, t: Section)
    requires GoodConfig(cfg) && CalmFor(cfg, note, created, s) && s != t && CutFor(note, t)
    ensures CutFor(Merged(cfg, note, created, s), t)
  {
    hide GoodConfig, IsDerived, Calm, Severed, AllItems, Upsert, DerivedLines, Heading;
    HeadingsDiffer(s, t);
    HeadingsDiffer(t, s);
    LinesAreItems(cfg, created(s));
    OthersCut(cfg, note, Heading(s), DerivedLines(cfg, created(s)), Heading(t));
  }

  // Some section is cut after all three merges if one of them was disturbed.
  lemma SomeCut(cfg: Config, note: Note, created: Created) returns (s: Section)
    requires GoodConfig(cfg) && !Tidy(cfg, note, created)
    ensures CutFor(Apply(cfg, note, created), s) && created(s) != []
  {
    hide CalmFor, CutFor, Merged, GoodConfig, Apply, StandsFor;
    ApplySteps(cfg, note, created);
    var one := Merged(cfg, note, created, Decisions);
    var two := Merged(cfg, one, created, Bugs);
    if !CalmFor(cfg, two, created, Learnings) {
      RoughCuts(cfg, two, created, Learnings);
      s := Learnings;
    } else if !CalmFor(cfg, one, created, Bugs) {
      RoughCuts(cfg, one, created, Bugs);
      CutRemains(cfg, two, created, Learnings, Bugs);
      s := Bugs;
    } else {
      MergedStands(cfg, one, created, Bugs, Learnings);
      if CalmFor(cfg, note, created, Decisions) {
        MergedStands(cfg, note, created, Decisions, Bugs);
        MergedStands(cfg, note, created, Decisions, Learnings);
      }
      RoughCuts(cfg, note, created, Decisions);
      CutRemains(cfg, one, created, Bugs, Decisions);
      CutRemains(cfg, two, created, Learnings, Decisions);
      s := Decisions;
    }
  }

  /** The whole repair closes every section exactly when no section that receives links is disturbed. */
  lemma RepairExactly(cfg: Config, note: Note, created: Created)
    requires GoodConfig(cfg) && forall s :: Foreign(cfg, s, created(s))
    ensures (forall s :: Missing(cfg, Apply(cfg, note, created), s, created(s)) == []) <==> Tidy(cfg, note, created)
  {
    hide Apply, Tidy, GoodConfig, Foreign, CutFor;
    if Tidy(cfg, note, created) {
      forall s ensures Missing(cfg, Apply(cfg, note, created), s, created(s)) == [] {
        RepairCloses(cfg, note, created, s);
      }
    } else {
      var s := SomeCut(cfg, note, created);
      CutMisses(cfg, Apply(cfg, note, created), s, created(s));
    }
  }

  // ---------- prose keeps its order ----------

  // The prose of a merged body is that of the section, its list items aside.
  lemma MergedProse(cfg: Config, note: Note, b: Bounds, lines: seq<string>)
    requires b.at < b.end <= |note| && AllItems(cfg, lines)
    ensures Prose(cfg, MergedBody(cfg, note, b, lines)) == Prose(cfg, note[b.at + 1..b.end])
    ensures Bullets(cfg, MergedBody(cfg, note, b, lines))
            == AddAll(AddAll([], Bullets(cfg, note[b.at + 1..b.end])), lines)
  {
    var body := note[b.at + 1..b.end];
    var items := AddAll(AddAll([], Bullets(cfg, body)), lines);
    ProseIs(cfg, body);
    AddAllLaws(cfg, [], Bullets(cfg, body));
    AddAllLaws(cfg, AddAll([], Bullets(cfg, body)), lines);
    hide *;
    TailIs(note, b.end);
    BodyParts(cfg, Prose(cfg, body), items, Tail(note, b.end));
    MergedParts(cfg, note, b, lines);
  }

  lemma TailIs(note: Note, end: nat)
    ensures Tail(note, end) == [""] || Tail(note, end) == ["", ""]
  {
  }

  lemma MergedParts(cfg: Config, note: Note, b: Bounds, lines: seq<string>)
    requires b.at < b.end <= |note|
    ensures var body := note[b.at + 1..b.end];
            var prose, items := Prose(cfg, body), AddAll(AddAll([], Bullets(cfg, body)), lines);
            MergedBody(cfg, note, b, lines)
            == [""] + (prose + (if prose != [] then [""] else []) + items) + Tail(note, b.end)
  {
    hide Prose, Bullets, AddAll, Tail;
  }

  lemma MergeProse(cfg: Config, note: Note, heading: string, lines: seq<string>)
    requires AllItems(cfg, lines)
    ensures Prose(cfg, Upsert(cfg, note, heading, lines)) == Prose(cfg, note)
  {
    hide AllItems, Prose, Upsert, FindSection, MergedBody, Bullets, AddAll;
    UpsertNothing(cfg, note, heading, lines);
    if FindSection(note, heading).Some? && lines != [] {
      SectionShape(note, heading);
      var b := FindSection(note, heading).value;
      UpsertReplaces(cfg, note, heading, lines);
      MergedProse(cfg, note, b, lines);
      var body := note[b.at + 1..b.end];
      ProseOfThree(cfg, note[..b.at + 1], MergedBody(cfg, note, b, lines), note[b.end..]);
      ProseOfThree(cfg, note[..b.at + 1], body, note[b.end..]);
      assert note == note[..b.at + 1] + body + note[b.end..];
    }
  }

  lemma ProseOfThree(cfg: Config, a: seq<string>, b: seq<string>, c: seq<string>)
    ensures Prose(cfg, a + b + c) == Prose(cfg, a) + Prose(cfg, b) + Prose(cfg, c)
  {
    ProseSplit(cfg, a + b, c);
    ProseSplit(cfg, a, b);
  }

  /**
   The whole repair of any note keeps every line that says something and is no list item, headings included: in its
   order, as often as it stands there, trimmed at its end.
   */
  lemma ProseKept(cfg: Config, note: Note, created: Created)
    requires GoodConfig(cfg)
    ensures Prose(cfg, Apply(cfg, note, created)) == Prose(cfg, note)
  {
    ApplySteps(cfg, note, created);
    forall s: Section, n: Note ensures Prose(cfg, Merged(cfg, n, created, s)) == Prose(cfg, n) {
      LinesAreItems(cfg, created(s));
      hide *;
      MergeProse(cfg, n, Heading(s), DerivedLines(cfg, created(s)));
      MergedIs(cfg, n, created, s);
    }
    hide *;
    var one := Merged(cfg, note, created, Decisions);
    assert Prose(cfg, Merged(cfg, one, created, Bugs)) == Prose(cfg, one);
  }

  lemma MergedIs(cfg: Config, note: Note, created: Created, s: Section)
    ensures Merged(cfg, note, created, s) == Upsert(cfg, note, Heading(s), DerivedLines(cfg, created(s)))
  {
    hide Upsert, DerivedLines, Heading;
  }
}
