/** The repair as a whole: what a fusion keeps, and exactly when its result is one block and is written. */
module FrontmatterRepair {
  import opened Common
  import opened Frontmatter
  import opened FrontmatterText
  import opened FrontmatterLaws

  // ---------- what is merged ----------

  predicate SoundBlocks(blocks: seq<string>) {
    forall i | 0 <= i < |blocks| :: AllSound(ParseEntries(blocks[i]))
  }

  lemma {:induction false} SplitSound(s: string)
    ensures SoundBlocks(Split(s).0)
    decreases |s|
  {
    if HasBlock(s) {
      FirstSound(s);
      SplitSound(AfterBlock(s));
      hide AllSound, ParseEntries, FirstBlock, HasBlock, AfterBlock;
    }
  }

  lemma FirstSound(s: string)
    requires HasBlock(s)
    ensures AllSound(ParseEntries(FirstBlock(s)))
  {
    BlockText(s);
    BlockClean(s);
    BlockEntries(Body(s), "");
    hide AllSound, ParseLines, TrimEntries, Lines, Inner, FirstBlock, HasBlock, Body, CleanLines;
  }

  lemma {:induction false} MergeSound(blocks: seq<string>)
    requires blocks != [] && SoundBlocks(blocks)
    ensures AllSound(MergeBlocks(blocks))
  {
    hide AllSound, ParseEntries;
    if |blocks| > 1 {
      MergeSound(blocks[1..]);
      PutAllSound(MergeBlocks(blocks[1..]), ParseEntries(blocks[0]));
    }
  }

  // The lines of a key in the topmost block that has it.
  function Topmost(blocks: seq<string>, key: string): Option<seq<string>> {
    if blocks == [] then None
    else if HasKey(ParseEntries(blocks[0]), key) then Get(ParseEntries(blocks[0]), key)
    else Topmost(blocks[1..], key)
  }

  predicate SomeBlockHas(blocks: seq<string>, key: string) {
    exists i :: 0 <= i < |blocks| && HasKey(ParseEntries(blocks[i]), key)
  }

  /** A fusion keeps exactly the union of the keys; the topmost block wins; the bottom block sets the order. */
  lemma {:induction false} MergeLaw(blocks: seq<string>, key: string)
    requires blocks != [] && SoundBlocks(blocks)
    ensures Get(MergeBlocks(blocks), key) == Topmost(blocks, key)
    ensures HasKey(MergeBlocks(blocks), key) <==> SomeBlockHas(blocks, key)
    ensures Keys(ParseEntries(blocks[|blocks| - 1])) <= Keys(MergeBlocks(blocks))
  {
    hide ParseEntries, Sound, Put, Find;
    if |blocks| > 1 {
      MergeLaw(blocks[1..], key);
      var below, top := MergeBlocks(blocks[1..]), ParseEntries(blocks[0]);
      PutAllLaws(below, top, key);
      if SomeBlockHas(blocks, key) {
        var i :| 0 <= i < |blocks| && HasKey(ParseEntries(blocks[i]), key);
        assert i > 0 ==> HasKey(ParseEntries(blocks[1..][i - 1]), key);
      }
      if SomeBlockHas(blocks[1..], key) {
        var i :| 0 <= i < |blocks[1..]| && HasKey(ParseEntries(blocks[1..][i]), key);
        assert HasKey(ParseEntries(blocks[i + 1]), key);
      }
    } else {
      assert Topmost(blocks[1..], key) == None;
    }
  }

  // ---------- dashed lines of a printed map ----------

  predicate LaterKeysPlain(es: Entries) {
    forall i | 1 <= i < |es| :: !Dashed(es[i].key)
  }

  lemma KeyDashed(line: string)
    requires KeyOf(line).Some?
    ensures Dashed(line) <==> Dashed(KeyOf(line).value)
  {
    var i := KeyLength(line);
    if Dashed(line) {
      assert i >= 3 by {
        assert line[0] == '-' && line[1] == '-' && line[2] == '-';
      }
      assert line[..i][..3] == line[..3];
    }
    if Dashed(line[..i]) {
      assert line[..i][..3] == line[..3];
    }
  }

  predicate NoLaterDash(lines: seq<string>) {
    forall i | 1 <= i < |lines| :: !Dashed(lines[i])
  }

  lemma {:induction false} FlatDashes(es: Entries)
    requires AllSound(es)
    ensures NoLaterDash(Flat(es)) <==> LaterKeysPlain(es)
  {
    hide KeyOf, Blank, Dashed;
    if es != [] {
      var n := |es| - 1;
      FlatDashes(es[..n]);
      FlatPlain(es[..n]);
      var before, e := Flat(es[..n]), es[n];
      assert Sound(e);
      KeyDashed(e.lines[0]);
      if NoLaterDash(before + e.lines) {
        assert forall i | 1 <= i < |before| :: (before + e.lines)[i] == before[i];
        assert n > 0 ==> (before + e.lines)[|before|] == e.lines[0];
        assert forall i | 1 <= i < n :: es[..n][i] == es[i];
      }
      if LaterKeysPlain(es) {
        assert forall i | 1 <= i < n :: es[..n][i] == es[i];
        forall i | 1 <= i < |before + e.lines| ensures !Dashed((before + e.lines)[i]) {
          assert i >= |before| ==> (before + e.lines)[i] == e.lines[i - |before|];
        }
      }
    }
  }

  lemma {:induction false} FlatPrefix(es: Entries, i: nat)
    requires i <= |es|
    ensures Flat(es[..i]) <= Flat(es)
  {
    if i == |es| {
      assert es[..i] == es;
    } else {
      FlatPrefix(es[..|es| - 1], i);
      assert es[..|es| - 1][..i] == es[..i];
    }
  }

  lemma {:induction false} KeysOfFlat(es: Entries, line: string)
    requires AllSound(es) && line in Flat(es) && KeyOf(line).Some?
    ensures exists i :: 0 <= i < |es| && es[i].key == KeyOf(line).value
  {
    hide KeyOf, Blank;
    var n := |es| - 1;
    assert Sound(es[n]);
    if line in Flat(es[..n]) {
      KeysOfFlat(es[..n], line);
      var i :| 0 <= i < |es[..n]| && es[..n][i].key == KeyOf(line).value;
      assert es[i].key == KeyOf(line).value;
    } else {
      var j :| 0 <= j < |es[n].lines| && es[n].lines[j] == line;
      assert j == 0;
    }
  }

  lemma FirstDashedIs(lines: seq<string>, m: nat)
    requires 1 <= m <= |lines| && (forall i | 1 <= i < m :: !Dashed(lines[i])) && (m < |lines| ==> Dashed(lines[m]))
    ensures FirstDashed(lines) == m
  {
    hide Dashed;
  }

  lemma {:induction false} FlatHead(es: Entries, i: nat)
    requires i < |es| && es[i].lines != []
    ensures |Flat(es[..i])| < |Flat(es)| && Flat(es[..i]) <= Flat(es)
    ensures Flat(es)[|Flat(es[..i])|] == es[i].lines[0]
  {
    FlatPrefix(es, i);
    FlatPrefix(es, i + 1);
    assert es[..i + 1][..i] == es[..i];
    var next := Flat(es[..i + 1]);
    assert next == Flat(es[..i]) + es[i].lines;
    assert next[|Flat(es[..i])|] == es[i].lines[0];
    assert Flat(es)[..|next|] == next;
  }

  lemma CutAt(es: Entries, i: nat)
    requires AllSound(es) && 1 <= i < |es| && Dashed(es[i].key)
    requires forall j | 1 <= j < i :: !Dashed(es[j].key)
    ensures Flat(es[..i]) != [] && Flat(es[..i]) <= Flat(es) && FirstDashed(Shown(es)) == |Flat(es[..i])| < |Shown(es)|
  {
    var head := es[..i];
    assert AllSound(head) && head != [] && Sound(es[i]) && LaterKeysPlain(head);
    hide KeyOf, Blank, Dashed, AllSound, LaterKeysPlain;
    FlatDashes(head);
    FlatPlain(head);
    FlatHead(es, i);
    KeyDashed(es[i].lines[0]);
    var m := |Flat(head)|;
    forall j | 1 <= j < m ensures !Dashed(Flat(es)[j]) {
      assert Flat(es)[j] == Flat(head)[j];
    }
    FirstDashedIs(Flat(es), m);
  }

  // Where a printed map is cut when a later key opens with three dashes: before the first such entry.
  lemma CutEntry(es: Entries) returns (i: nat)
    requires AllSound(es) && !LaterKeysPlain(es)
    ensures 1 <= i < |es| && Dashed(es[i].key)
    ensures Flat(es[..i]) != [] && Flat(es[..i]) <= Flat(es) && FirstDashed(Shown(es)) == |Flat(es[..i])| < |Shown(es)|
  {
    i := 1;
    hide Dashed, Shown, AllSound, FirstDashed;
    while !Dashed(es[i].key)
      invariant 1 <= i < |es| && forall j | 1 <= j < i :: !Dashed(es[j].key)
      decreases |es| - i
    {
      assert exists j :: i < j < |es| && Dashed(es[j].key);
      i := i + 1;
    }
    CutAt(es, i);
  }

  // ---------- one block ----------

  function MergedText(es: Entries, body: string): string {
    Printed(es) + "\n\n" + body
  }

  predicate Remainder(body: string) {
    !HasBlock(body) && (body == "" || (body[0] != '\n' && body[0] != '\r'))
  }

  lemma CleanExactly(es: Entries)
    requires AllSound(es)
    ensures CleanLines(Shown(es)) <==> LaterKeysPlain(es)
  {
    hide AllSound, Dashed;
    FlatDashes(es);
    FlatPlain(es);
  }

  // The first block of the merged text, in lines.
  lemma MergedHead(es: Entries, body: string)
    requires AllSound(es)
    ensures var s := MergedText(es, body);
            HasBlock(s) && Body(s) == Join(Shown(es)[..FirstDashed(Shown(es))])
  {
    ShownText(es);
    FirstBlockOfLines(Shown(es), "\n\n" + body);
    hide AllSound, HasBlock, Join, Shown, Body;
    assert MergedText(es, body) == "---\n" + Join(Shown(es)) + "\n---" + ("\n\n" + body);
  }

  lemma AfterIs(s: string, block: string)
    requires HasBlock(s) && FirstBlock(s) == block
    ensures |block| <= |s| && AfterBlock(s) == SkipNewlines(s[|block|..])
  {
  }

  lemma SplitOnce(s: string, block: string, body: string)
    requires HasBlock(s) && FirstBlock(s) == block && |block| <= |s| && SkipNewlines(s[|block|..]) == body
             && !HasBlock(body)
    ensures Split(s) == ([block], body)
  {
    AfterIs(s, block);
    hide HasBlock, AfterBlock, FirstBlock;
    assert Split(body) == ([], body);
    assert [block] + [] == [block];
  }

  lemma CleanSplit(es: Entries, body: string)
    requires AllSound(es) && Remainder(body) && CleanLines(Shown(es))
    ensures Split(MergedText(es, body)) == ([Printed(es)], body)
  {
    var s := MergedText(es, body);
    MergedHead(es, body);
    ShownText(es);
    BlockText(s);
    SkipNone(body);
    hide AllSound, Shown, Join, HasBlock, Body, SkipNewlines, Split, FirstBlock, Inner, Lines;
    assert Shown(es)[..|Shown(es)|] == Shown(es);
    assert FirstBlock(s) == Printed(es);
    hide Printed;
    AfterHead(Printed(es), "\n\n" + body);
    MergedIs(es, body);
    SplitOnce(s, Printed(es), body);
  }

  lemma MergedIs(es: Entries, body: string)
    ensures MergedText(es, body) == Printed(es) + ("\n\n" + body)
  {
    hide Printed;
    Regrouped(Printed(es), "\n\n", body);
  }

  /** The result is one block, with the body unchanged, exactly when no key after the first opens with three dashes. */
  lemma OneBlockExactly(es: Entries, body: string)
    requires AllSound(es) && Remainder(body)
    ensures Split(MergedText(es, body)) == ([Printed(es)], body) <==> LaterKeysPlain(es)
    ensures LaterKeysPlain(es) ==> Merge(MergedText(es, body)).None?
  {
    CleanExactly(es);
    var s := MergedText(es, body);
    if CleanLines(Shown(es)) {
      CleanSplit(es, body);
    } else {
      MergedHead(es, body);
      ShownText(es);
      BlockText(s);
      ShorterJoin(Shown(es), FirstDashed(Shown(es)));
      hide AllSound, Shown, Join, HasBlock, Body;
      assert Split(s).0[0] == FirstBlock(s);
      assert |FirstBlock(s)| < |Printed(es)|;
    }
  }

  // ---------- the guard of the repair ----------

  datatype Problem = NotOneBlock | KeyLost | BodyLost

  predicate EndsWith(s: string, suffix: string) {
    |suffix| <= |s| && s[|s| - |suffix|..] == suffix
  }

  predicate KeepsKeys(entries: Entries, kept: Entries) {
    forall i | 0 <= i < |entries| :: HasKey(kept, entries[i].key)
  }

  predicate Validates(original: string, merged: string) {
    var after, before := Split(merged), Split(original);
    && |after.0| == 1
    && (forall i | 0 <= i < |before.0| :: KeepsKeys(ParseEntries(before.0[i]), ParseEntries(after.0[0])))
    && (before.1 != "" ==> EndsWith(merged, before.1))
  }

  /** The check before a repaired note is written. */
  method ValidateMerge(original: string, merged: string) returns (problem: Option<Problem>)
    ensures problem.None? <==> Validates(original, merged)
  {
    hide ParseEntries, Split, HasKey;
    var after, _ := SplitStackedFrontmatter(merged);
    if |after| != 1 {
      return Some(NotOneBlock);
    }
    var kept := ReadEntries(after[0]);
    var before, body := SplitStackedFrontmatter(original);
    var i := 0;
    while i < |before|
      invariant i <= |before|
      invariant forall k | 0 <= k < i :: KeepsKeys(ParseEntries(before[k]), kept)
    {
      var entries := ReadEntries(before[i]);
      var j := 0;
      while j < |entries|
        invariant j <= |entries| && forall k | 0 <= k < j :: HasKey(kept, entries[k].key)
      {
        if !HasKey(kept, entries[j].key) {
          assert !KeepsKeys(ParseEntries(before[i]), kept);
          return Some(KeyLost);
        }
        j := j + 1;
      }
      i := i + 1;
    }
    if body != "" && !EndsWith(merged, body) {
      return Some(BodyLost);
    }
    problem := None;
  }

  lemma KeptInUnion(blocks: seq<string>, kept: Entries)
    requires forall k :: SomeBlockHas(blocks, k) ==> HasKey(kept, k)
    ensures forall i | 0 <= i < |blocks| :: KeepsKeys(ParseEntries(blocks[i]), kept)
  {
    forall i | 0 <= i < |blocks| ensures KeepsKeys(ParseEntries(blocks[i]), kept) {
      var es := ParseEntries(blocks[i]);
      hide ParseEntries;
      forall j | 0 <= j < |es| ensures HasKey(kept, es[j].key) {
        assert HasKey(es, es[j].key);
        assert SomeBlockHas(blocks, es[j].key);
      }
    }
  }

  // A key that some block has and the kept map lacks is a lost key.
  lemma LostKey(blocks: seq<string>, kept: Entries, key: string)
    requires SomeBlockHas(blocks, key) && !HasKey(kept, key)
    ensures exists i :: 0 <= i < |blocks| && !KeepsKeys(ParseEntries(blocks[i]), kept)
  {
    hide ParseEntries;
    var i :| 0 <= i < |blocks| && HasKey(ParseEntries(blocks[i]), key);
    var es := ParseEntries(blocks[i]);
    assert es[Find(es, key)].key == key;
    assert !KeepsKeys(es, kept);
  }

  lemma NotEarlier(es: Entries, i: nat)
    requires AllSound(es) && i < |es|
    ensures AllSound(es[..i]) && HasKey(es, es[i].key)
    ensures forall l | l in Flat(es[..i]) :: KeyOf(l) != Some(es[i].key)
  {
    hide KeyOf, Sound;
    HasKeyAt(es, i);
    forall l | l in Flat(es[..i]) ensures KeyOf(l) != Some(es[i].key) {
      if KeyOf(l) == Some(es[i].key) {
        KeysOfFlat(es[..i], l);
      }
    }
  }

  // The first block of a cut text holds the lines before the cut.
  lemma CutBlock(es: Entries, body: string, i: nat)
    requires AllSound(es) && i <= |es| && Flat(es[..i]) != [] && Flat(es[..i]) <= Flat(es)
    requires FirstDashed(Shown(es)) == |Flat(es[..i])|
    ensures var s := MergedText(es, body);
            HasBlock(s) && Lines(Body(s)) == Flat(es[..i]) && Split(s).0 != [] && Split(s).0[0] == FirstBlock(s)
  {
    MergedHead(es, body);
    ShownText(es);
    hide AllSound, Join, HasBlock, Body, Lines, FirstDashed, Sound, FirstBlock;
    var lines := Flat(es[..i]);
    assert Shown(es)[..|lines|] == lines;
    LinesOfJoin(lines);
  }

  lemma CutLosesKey(es: Entries, body: string) returns (key: string)
    requires AllSound(es) && !LaterKeysPlain(es)
    ensures HasKey(es, key) && Split(MergedText(es, body)).0 != []
    ensures !HasKey(ParseEntries(Split(MergedText(es, body)).0[0]), key)
  {
    var s := MergedText(es, body);
    var i := CutEntry(es);
    key := es[i].key;
    hide MergedText, AllSound, LaterKeysPlain, HasBlock, Body, Lines, ParseLines, TrimEntries, Split, FirstBlock, Inner,
         Dashed, FirstDashed, Shown, KeyOf, HasKey, CleanLines;
    CutBlock(es, body, i);
    NotEarlier(es, i);
    BlockText(s);
    BlockClean(s);
    BlockEntries(Body(s), key);
  }

  lemma HasKeyAt(es: Entries, i: nat)
    requires i < |es|
    ensures HasKey(es, es[i].key)
  {
  }

  /**
   The repair of a stacked note passes its own check, and so is written, exactly when no key after the first of the
   fused map opens with three dashes.
   */
  lemma RepairExactly(content: string)
    requires |Split(content).0| >= 2
    ensures Merge(content).Some?
    ensures Validates(content, Merge(content).value) <==> LaterKeysPlain(MergeBlocks(Split(content).0))
  {
    var (blocks, body) := Split(content);
    var es := MergeBlocks(blocks);
    SplitSound(content);
    SplitRest(content);
    MergeSound(blocks);
    hide SoundBlocks, AllSound, Split, MergeBlocks, LaterKeysPlain;
    var merged := MergedText(es, body);
    assert Merge(content) == Some(merged);
    assert EndsWith(merged, body);
    forall k ensures HasKey(es, k) <==> SomeBlockHas(blocks, k) {
      MergeLaw(blocks, k);
    }
    if LaterKeysPlain(es) {
      OneBlockExactly(es, body);
      PrintedReadsBack(es);
      KeptInUnion(blocks, es);
    } else {
      var key := CutLosesKey(es, body);
      LostKey(blocks, ParseEntries(Split(merged).0[0]), key);
    }
  }
}
