/** Whole repairs of a note: what is settled stays settled, nothing is missing afterwards, nothing is lost. */
module DerivedRepair {
  import opened Common
  import opened Frontmatter
  import opened Derived
  import opened DerivedLaws

  // ---------- where things are after a replacement ----------

  lemma FindHeadingIs(note: Note, heading: string, i: nat, k: nat)
    requires i <= k <= |note| && (k < |note| ==> note[k] == heading && k + 1 < |note|)
    requires forall j | i <= j < k && j + 1 < |note| :: note[j] != heading
    ensures FindHeading(note, heading, i) == k
  {
  }

  lemma NextHeadingIs(note: Note, i: nat, k: nat)
    requires i <= k <= |note| && (k < |note| ==> IsHeading(note[k])) && forall j | i <= j < k :: !IsHeading(note[j])
    ensures NextHeading(note, i) == k
  {
  }

  // The lines after `at` up to `end` are replaced; the new ones hold no heading.
  function Replaced(note: Note, at: nat, end: nat, body: seq<string>): Note
    requires at < end <= |note|
  {
    note[..at + 1] + body + note[end..]
  }

  predicate Replaces(note: Note, at: nat, end: nat, body: seq<string>) {
    && 1 <= at && at + 2 <= end <= |note| && |body| >= 2 && NoHeadings(body) && IsDerived(note[at])
    && (end < |note| ==> IsHeading(note[end]))
    && (forall i | at < i < end :: !IsDerived(note[i]))
  }

  lemma ReplacedAt(note: Note, at: nat, end: nat, body: seq<string>, k: nat)
    requires at < end <= |note|
    ensures var next := Replaced(note, at, end, body);
            && |next| == at + 1 + |body| + |note| - end
            && (k <= at ==> next[k] == note[k])
            && (at < k <= at + |body| ==> next[k] == body[k - at - 1])
            && (end <= k < |note| ==> next[k + |next| - |note|] == note[k])
            && (at + |body| < k < |next| ==> next[k] == note[k - |next| + |note|])
  {
  }

  lemma DerivedIsHeading(line: string)
    requires IsDerived(line)
    ensures IsHeading(line) && TrimEnd(line) == line
  {
    var n := |line| - 1;
    assert line[0] == '#' && line[1] == '#' && line[2] == ' ';
    assert !IsSpace(line[n]);
  }

  lemma StaysRegular(note: Note, at: nat, end: nat, body: seq<string>)
    requires Replaces(note, at, end, body) && body[0] == "" && Regular(note)
    ensures Regular(Replaced(note, at, end, body))
  {
    var next := Replaced(note, at, end, body);
    var d := |next| - |note|;
    forall i | 1 <= i < |next| - 1 && IsDerived(next[i]) ensures !IsHeading(TrimEnd(next[i + 1])) {
      ReplacedAt(note, at, end, body, i);
      ReplacedAt(note, at, end, body, i + 1);
      DerivedIsHeading(next[i]);
      if i == at {
        assert next[i + 1] == "";
        assert !IsHeading(TrimEnd(""));
      }
      hide IsDerived, IsHeading, TrimEnd;
    }
  }

  // The replaced section itself.
  lemma OwnSection(note: Note, at: nat, end: nat, body: seq<string>, heading: string)
    requires Replaces(note, at, end, body) && note[at] == heading && FindHeading(note, heading, 1) == at
    ensures var next := Replaced(note, at, end, body);
            FindSection(next, heading) == Some(Bounds(at, at + 1 + |body|))
  {
    var next := Replaced(note, at, end, body);
    forall j | 1 <= j < at ensures next[j] != heading {
      ReplacedAt(note, at, end, body, j);
    }
    ReplacedAt(note, at, end, body, at);
    FindHeadingIs(next, heading, 1, at);
    forall j | at + 2 <= j < at + 1 + |body| ensures !IsHeading(next[j]) {
      ReplacedAt(note, at, end, body, j);
    }
    if end < |note| {
      ReplacedAt(note, at, end, body, end);
    }
    NextHeadingIs(next, at + 2, at + 1 + |body|);
  }

  // Where another section is afterwards: in front it stays, behind it moves along.
  function Moved(note: Note, at: nat, end: nat, body: seq<string>, b: Bounds): Bounds
    requires at < end <= |note| && b.at < b.end && (b.at < at || b.at >= end)
  {
    if b.at < at then b else Bounds(b.at - end + at + 1 + |body|, b.end - end + at + 1 + |body|)
  }

  lemma OtherHeading(note: Note, at: nat, end: nat, body: seq<string>, heading: string)
    requires Replaces(note, at, end, body) && IsDerived(heading) && note[at] != heading
    ensures var next := Replaced(note, at, end, body); var k := FindHeading(note, heading, 1);
            var m := FindHeading(next, heading, 1);
            if k == |note| then m == |next| else if k < at then m == k else k >= end && m == k + |next| - |note|
  {
    var next, k := Replaced(note, at, end, body), FindHeading(note, heading, 1);
    var d := |next| - |note|;
    ReplacedAt(note, at, end, body, 0);
    DerivedIsHeading(heading);
    var m := if k == |note| then |next| else if k < at then k else k + d;
    if at < k < |note| {
      assert k >= end;
    }
    forall j | 1 <= j < m && j + 1 < |next| ensures next[j] != heading {
      ReplacedAt(note, at, end, body, j);
      if at + |body| < j {
        assert next[j] == note[j - d];
      }
    }
    if k < |note| {
      ReplacedAt(note, at, end, body, k);
    }
    hide IsDerived, IsHeading;
    FindHeadingIs(next, heading, 1, m);
  }

  // A section in front of the replacement ends in front of it, and stays.
  lemma SectionBefore(note: Note, at: nat, end: nat, body: seq<string>, heading: string)
    requires Replaces(note, at, end, body) && IsDerived(heading) && note[at] != heading
    requires FindSection(note, heading).Some? && FindSection(note, heading).value.at + 1 < at
    requires var b := FindSection(note, heading).value; FindHeading(Replaced(note, at, end, body), heading, 1) == b.at
    ensures var b := FindSection(note, heading);
            b.value.end <= at && FindSection(Replaced(note, at, end, body), heading) == b
  {
    var next, b := Replaced(note, at, end, body), FindSection(note, heading).value;
    var k, e := b.at, b.end;
    assert note[k] == heading;
    DerivedIsHeading(note[at]);
    assert e <= at;
    hide IsDerived, TrimEnd, IsHeading;
    ReplacedAt(note, at, end, body, 0);
    forall j | k + 2 <= j < e ensures !IsHeading(next[j]) {
      ReplacedAt(note, at, end, body, j);
    }
    ReplacedAt(note, at, end, body, e);
    NextHeadingIs(next, k + 2, e);
  }

  // A section behind the replacement moves along.
  lemma SectionBehind(note: Note, at: nat, end: nat, body: seq<string>, heading: string)
    requires at < end <= |note|
    requires FindSection(note, heading).Some? && FindSection(note, heading).value.at >= end
    requires var b := FindSection(note, heading).value; var next := Replaced(note, at, end, body);
             FindHeading(next, heading, 1) == b.at + |next| - |note| < |next|
    ensures var b := FindSection(note, heading).value;
            FindSection(Replaced(note, at, end, body), heading) == Some(Moved(note, at, end, body, b))
  {
    hide IsHeading;
    var next, b := Replaced(note, at, end, body), FindSection(note, heading).value;
    var k, e, d := b.at, b.end, |next| - |note|;
    ReplacedAt(note, at, end, body, 0);
    forall j | k + d + 2 <= j < e + d ensures !IsHeading(next[j]) {
      ReplacedAt(note, at, end, body, j - d);
    }
    if e < |note| {
      ReplacedAt(note, at, end, body, e);
    }
    NextHeadingIs(next, k + d + 2, e + d);
  }

  lemma OtherSection(note: Note, at: nat, end: nat, body: seq<string>, heading: string)
    requires Replaces(note, at, end, body) && IsDerived(heading) && note[at] != heading
    requires FindSection(note, heading).Some? ==> FindSection(note, heading).value.at + 1 != at
    ensures var next := Replaced(note, at, end, body); var b := FindSection(note, heading);
            && (b.None? ==> FindSection(next, heading).None?)
            && (b.Some? ==>
                  && (b.value.at < at || b.value.at >= end)
                  && (b.value.at < at ==> b.value.end <= at)
                  && FindSection(next, heading) == Some(Moved(note, at, end, body, b.value)))
  {
    OtherHeading(note, at, end, body, heading);
    ReplacedAt(note, at, end, body, 0);
    hide IsDerived, IsHeading, NoHeadings;
    var b := FindSection(note, heading);
    if b.Some? {
      if b.value.at < at {
        SectionBefore(note, at, end, body, heading);
      } else {
        SectionBehind(note, at, end, body, heading);
      }
    }
  }

  // ---------- one upsert as a replacement ----------

  function Tail(note: Note, end: nat): seq<string> {
    if end == |note| then ["", ""] else [""]
  }

  function MergedBody(cfg: Config, note: Note, b: Bounds, lines: seq<string>): seq<string>
    requires b.at < b.end <= |note|
  {
    [""] + NewBody(cfg, note[b.at + 1..b.end], lines) + Tail(note, b.end)
  }

  lemma UpsertReplaces(cfg: Config, note: Note, heading: string, lines: seq<string>)
    requires FindSection(note, heading).Some? && lines != []
    ensures var b := FindSection(note, heading).value;
            Upsert(cfg, note, heading, lines) == Replaced(note, b.at, b.end, MergedBody(cfg, note, b, lines))
  {
    hide NewBody;
    var b := FindSection(note, heading).value;
    if b.end == |note| {
      assert note[b.end..] == [];
      assert [""] + [""] == ["", ""];
    }
  }

  // The section is there, and no heading of its level follows its own at once.
  predicate Undisturbed(note: Note, heading: string) {
    var b := FindSection(note, heading);
    b.Some? && !IsHeading(TrimEnd(note[b.value.at + 1]))
  }

  lemma RegularUndisturbed(note: Note, heading: string)
    requires Regular(note) && IsDerived(heading) && FindSection(note, heading).Some?
    ensures Undisturbed(note, heading)
  {
  }

  // An undisturbed derived section holds no derived heading, and its lines stay plain when trimmed.
  lemma SectionPlain(note: Note, heading: string)
    requires IsDerived(heading) && Undisturbed(note, heading)
    ensures var b := FindSection(note, heading).value;
            && note[b.at] == heading && FindHeading(note, heading, 1) == b.at
            && (b.end < |note| ==> IsHeading(note[b.end]))
            && (forall i | b.at < i < b.end :: !IsHeading(TrimEnd(note[i])) && !IsDerived(note[i]))
  {
    var b := FindSection(note, heading).value;
    forall i | b.at < i < b.end ensures !IsHeading(TrimEnd(note[i])) && !IsDerived(note[i]) {
      if i > b.at + 1 {
        assert !IsHeading(note[i]);
        TrimNoHeading(note[i]);
      }
      if IsDerived(note[i]) {
        DerivedIsHeading(note[i]);
      }
    }
  }

  lemma TrimNoHeading(line: string)
    requires !IsHeading(line)
    ensures !IsHeading(TrimEnd(line))
  {
    assert TrimEnd(line) <= line;
  }

  lemma LinesAreItems(cfg: Config, items: seq<string>)
    requires GoodConfig(cfg)
    ensures AllItems(cfg, DerivedLines(cfg, items))
  {
    forall i | 0 <= i < |Sorted(items)|
      ensures Settled(cfg, DerivedLines(cfg, items)[i]) && IsItem(DerivedLines(cfg, items)[i])
    {
      var line := LinkLine(cfg, Sorted(items)[i]);
      assert line[0] == '-' && !IsSpace('-');
      assert '-' in line;
    }
  }

  lemma MergedIsReplacement(cfg: Config, note: Note, heading: string, lines: seq<string>)
    requires IsDerived(heading) && Undisturbed(note, heading) && AllItems(cfg, lines)
    ensures var b := FindSection(note, heading).value;
            Replaces(note, b.at, b.end, MergedBody(cfg, note, b, lines)) && MergedBody(cfg, note, b, lines)[0] == ""
  {
    SectionPlain(note, heading);
    hide NewBody, IsDerived, AllItems, TrimEnd, Regular, IsHeading, FindSection;
    var b := FindSection(note, heading).value;
    NewBodyPlain(cfg, note[b.at + 1..b.end], lines);
    MergedPlain(cfg, note, b, lines);
  }

  lemma MergedPlain(cfg: Config, note: Note, b: Bounds, lines: seq<string>)
    requires b.at < b.end <= |note| && NoHeadings(NewBody(cfg, note[b.at + 1..b.end], lines))
    ensures NoHeadings(MergedBody(cfg, note, b, lines)) && |MergedBody(cfg, note, b, lines)| >= 2
    ensures MergedBody(cfg, note, b, lines)[0] == ""
  {
    hide NewBody;
    assert !IsHeading("");
  }

  // ---------- settled sections ----------

  // Merging the lines changes nothing.
  predicate Stands(cfg: Config, note: Note, heading: string, lines: seq<string>) {
    Upsert(cfg, note, heading, lines) == note
  }

  lemma UndisturbedFound(note: Note, heading: string)
    requires Undisturbed(note, heading)
    ensures FindSection(note, heading).Some?
  {
    hide FindSection, TrimEnd;
  }

  /** A merged section stands: merging the same lines again changes nothing. */
  lemma UpsertStands(cfg: Config, note: Note, heading: string, lines: seq<string>)
    requires IsDerived(heading) && Undisturbed(note, heading) && AllItems(cfg, lines)
    ensures Stands(cfg, Upsert(cfg, note, heading, lines), heading, lines)
    ensures Regular(note) ==> Regular(Upsert(cfg, note, heading, lines))
  {
    UndisturbedFound(note, heading);
    hide *;
    UpsertNothing(cfg, note, heading, lines);
    if lines != [] {
      UpsertReplaces(cfg, note, heading, lines);
      MergedStands(cfg, note, heading, lines);
    } else {
      StandsExactly(cfg, note, heading, lines);
    }
  }

  lemma MergedStands(cfg: Config, note: Note, heading: string, lines: seq<string>)
    requires IsDerived(heading) && Undisturbed(note, heading) && AllItems(cfg, lines) && lines != []
    requires FindSection(note, heading).Some?
    ensures var b := FindSection(note, heading).value;
            var next := Replaced(note, b.at, b.end, MergedBody(cfg, note, b, lines));
            Stands(cfg, next, heading, lines) && (Regular(note) ==> Regular(next))
  {
    hide *;
    var b := FindSection(note, heading).value;
    var body := MergedBody(cfg, note, b, lines);
    MergedIsReplacement(cfg, note, heading, lines);
    SectionPlain(note, heading);
    if Regular(note) {
      StaysRegular(note, b.at, b.end, body);
    }
    OwnSection(note, b.at, b.end, body, heading);
    ReplacedBody(cfg, note, b, lines);
    StandsExactly(cfg, Replaced(note, b.at, b.end, body), heading, lines);
  }

  // The merged body, merged again in its new place, is itself.
  lemma ReplacedBody(cfg: Config, note: Note, b: Bounds, lines: seq<string>)
    requires b.at < b.end <= |note| && AllItems(cfg, lines)
    ensures var body := MergedBody(cfg, note, b, lines); var next := Replaced(note, b.at, b.end, body);
            var c := Bounds(b.at, b.at + 1 + |body|);
            c.at < c.end <= |next| && next[c.at + 1..c.end] == body && MergedBody(cfg, next, c, lines) == body
  {
    BodySettles(cfg, note[b.at + 1..b.end], lines, Tail(note, b.end));
    hide NewBody, AllItems;
    var body := MergedBody(cfg, note, b, lines);
    var next := Replaced(note, b.at, b.end, body);
    assert next[b.at + 1..b.at + 1 + |body|] == body;
    assert Tail(next, b.at + 1 + |body|) == Tail(note, b.end);
  }

  // What it takes for a section to stand.
  lemma StandsExactly(cfg: Config, note: Note, heading: string, lines: seq<string>)
    ensures Stands(cfg, note, heading, lines)
            <==> lines == [] || FindSection(note, heading).None?
                 || var b := FindSection(note, heading).value; note[b.at + 1..b.end] == MergedBody(cfg, note, b, lines)
  {
    if lines != [] && FindSection(note, heading).Some? {
      UpsertReplaces(cfg, note, heading, lines);
      hide Upsert, NewBody, FindSection, MergedBody;
      var b := FindSection(note, heading).value;
      ReplacedSame(note, b.at, b.end, MergedBody(cfg, note, b, lines));
    }
  }

  lemma ReplacedSame(note: Note, at: nat, end: nat, body: seq<string>)
    requires at < end <= |note|
    ensures Replaced(note, at, end, body) == note <==> note[at + 1..end] == body
  {
    var next := Replaced(note, at, end, body);
    assert note == note[..at + 1] + note[at + 1..end] + note[end..];
    if next == note {
      assert |body| == end - at - 1;
      assert next[at + 1..at + 1 + |body|] == body;
    }
  }

  lemma MovedLines(note: Note, at: nat, end: nat, body: seq<string>, b: Bounds)
    requires at < end <= |note| && b.at < b.end <= |note| && (b.at >= end || b.end <= at)
    ensures var next, m := Replaced(note, at, end, body), Moved(note, at, end, body, b);
            && m.at < m.end <= |next| && next[m.at..m.end] == note[b.at..b.end]
            && next[m.at + 1..m.end] == note[b.at + 1..b.end]
                && (b.at >= end ==> (m.end == |next| <==> b.end == |note|))
  {
    var next, m := Replaced(note, at, end, body), Moved(note, at, end, body, b);
    ReplacedAt(note, at, end, body, 0);
    var d := m.at - b.at;
    forall i | b.at <= i < b.end ensures next[i + d] == note[i] {
      ReplacedAt(note, at, end, body, i);
    }
    assert forall i | m.at <= i < m.end :: next[i] == note[i - d];
  }

  // Where there is anything to merge into the section, it is undisturbed.
  predicate Calm(note: Note, heading: string, lines: seq<string>) {
    FindSection(note, heading).Some? && lines != [] ==> Undisturbed(note, heading)
  }

  // An undisturbed section is not followed by a derived heading at once.
  lemma NotNext(note: Note, heading: string, at: nat)
    requires Undisturbed(note, heading) && at < |note| && IsDerived(note[at])
    ensures FindSection(note, heading).value.at + 1 != at
  {
    DerivedIsHeading(note[at]);
    hide IsDerived, IsHeading;
  }

  /** Merging one section leaves the others as they are. */
  lemma OthersStand(cfg: Config, note: Note, heading: string, lines: seq<string>, other: string, more: seq<string>)
    requires IsDerived(heading) && IsDerived(other) && heading != other && AllItems(cfg, lines)
    requires Calm(note, heading, lines) && Calm(note, other, more) && Stands(cfg, note, other, more)
    ensures Stands(cfg, Upsert(cfg, note, heading, lines), other, more)
  {
    hide NewBody, Undisturbed, Replaces, Upsert, AllItems, IsDerived, FindSection, Stands, MergedBody, Replaced, Moved;
    UpsertNothing(cfg, note, heading, lines);
    var a := FindSection(note, heading);
    if a.Some? && lines != [] {
      var at, end, body := a.value.at, a.value.end, MergedBody(cfg, note, a.value, lines);
      UpsertReplaces(cfg, note, heading, lines);
      MergedIsReplacement(cfg, note, heading, lines);
      SectionPlain(note, heading);
      var next := Replaced(note, at, end, body);
      StandsExactly(cfg, note, other, more);
      StandsExactly(cfg, next, other, more);
      var b := FindSection(note, other);
      if b.Some? && more != [] {
        NotNext(note, other, at);
      }
      if more != [] {
        OtherSection(note, at, end, body, other);
      }
      if b.Some? && more != [] {
        MovedLines(note, at, end, body, b.value);
        MovedTail(cfg, note, at, end, body, b.value, more);
      }
    }
  }

  lemma UpsertNothing(cfg: Config, note: Note, heading: string, lines: seq<string>)
    ensures FindSection(note, heading).None? || lines == [] ==> Upsert(cfg, note, heading, lines) == note
  {
    hide FindSection, NewBody;
  }

  lemma MovedTail(cfg: Config, note: Note, at: nat, end: nat, body: seq<string>, b: Bounds, lines: seq<string>)
    requires at < end <= |note| && b.at < b.end <= |note| && (b.at >= end || b.end <= at)
    ensures var next, m := Replaced(note, at, end, body), Moved(note, at, end, body, b);
            m.at < m.end <= |next| && MergedBody(cfg, next, m, lines) == MergedBody(cfg, note, b, lines)
  {
    MovedLines(note, at, end, body, b);
    ReplacedAt(note, at, end, body, 0);
    hide NewBody, Replaced;
  }

  // ---------- calm sections ----------

  lemma OtherNextLine(note: Note, at: nat, end: nat, body: seq<string>, heading: string)
    requires Replaces(note, at, end, body) && IsDerived(heading) && note[at] != heading
    ensures var next := Replaced(note, at, end, body); var b, c := FindSection(note, heading),
            FindSection(next, heading);
            (b.Some? <==> c.Some?) && (b.Some? ==> next[c.value.at + 1] == note[b.value.at + 1])
  {
    OtherHeading(note, at, end, body, heading);
    hide IsDerived, IsHeading, NoHeadings;
    var b := FindSection(note, heading);
    if b.Some? {
      ReplacedAt(note, at, end, body, b.value.at);
      ReplacedAt(note, at, end, body, b.value.at + 1);
    } else {
      ReplacedAt(note, at, end, body, 0);
    }
  }

  /** Merging a calm section neither calms nor disturbs another one. */
  lemma OthersCalm(cfg: Config, note: Note, heading: string, lines: seq<string>, other: string, more: seq<string>)
    requires IsDerived(heading) && IsDerived(other) && heading != other && AllItems(cfg, lines)
    requires Calm(note, heading, lines)
    ensures Calm(Upsert(cfg, note, heading, lines), other, more) <==> Calm(note, other, more)
  {
    hide NewBody, Replaces, Upsert, AllItems, IsDerived, FindSection, MergedBody, Replaced, IsHeading, TrimEnd;
    UpsertNothing(cfg, note, heading, lines);
    var a := FindSection(note, heading);
    if a.Some? && lines != [] {
      UpsertReplaces(cfg, note, heading, lines);
      MergedIsReplacement(cfg, note, heading, lines);
      SectionPlain(note, heading);
      OtherNextLine(note, a.value.at, a.value.end, MergedBody(cfg, note, a.value, lines), other);
    }
  }

  // A section that ends right after an empty line.
  predicate Severed(note: Note, heading: string) {
    var b := FindSection(note, heading);
    b.Some? && b.value.end == b.value.at + 2 && note[b.value.at + 1] == "" && note[b.value.at] == heading
  }

  lemma CutStays(note: Note, at: nat, end: nat, body: seq<string>, heading: string)
    requires Replaces(note, at, end, body) && IsDerived(heading) && note[at] != heading && Severed(note, heading)
    ensures Severed(Replaced(note, at, end, body), heading)
  {
    var next, b := Replaced(note, at, end, body), FindSection(note, heading).value;
    EmptyNotDerived(note, at);
    OtherSection(note, at, end, body, heading);
    hide IsDerived, IsHeading, NoHeadings, FindSection;
    MovedLines(note, at, end, body, b);
    var m := Moved(note, at, end, body, b);
    assert next[m.at..m.end][0] == note[b.at..b.end][0] && next[m.at..m.end][1] == note[b.at..b.end][1];
  }

  lemma EmptyNotDerived(note: Note, at: nat)
    requires at < |note| && IsDerived(note[at])
    ensures note[at] != ""
  {
    DerivedIsHeading(note[at]);
  }

  lemma OthersCut(cfg: Config, note: Note, heading: string, lines: seq<string>, other: string)
    requires IsDerived(heading) && IsDerived(other) && heading != other && AllItems(cfg, lines)
    requires Calm(note, heading, lines) && Severed(note, other)
    ensures Severed(Upsert(cfg, note, heading, lines), other)
  {
    hide NewBody, Undisturbed, Replaces, Upsert, AllItems, IsDerived, FindSection, MergedBody, Replaced, Severed;
    UpsertNothing(cfg, note, heading, lines);
    var a := FindSection(note, heading);
    if a.Some? && lines != [] {
      UpsertReplaces(cfg, note, heading, lines);
      MergedIsReplacement(cfg, note, heading, lines);
      SectionPlain(note, heading);
      CutStays(note, a.value.at, a.value.end, MergedBody(cfg, note, a.value, lines), other);
    }
  }
}
