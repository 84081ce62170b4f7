/** Git snapshots of a FLOW (hooks/git-snapshot.mjs): what differs between two, and which paths are allowed. */
module FlowSnapshot {
  import opened Common

  type Path = string

  // Fingerprints are hashes; hashing is taken to be injective.
  datatype Snapshot = Snapshot(
    root: string, head: string,
    fingerprints: map<Path, int>, physical: map<Path, int>,
    metadata: int, hidden: seq<Path>,
    unsafeMetadata: seq<Path>, unsafeWorktree: seq<Path>, unsafePhysical: seq<Path>)

  datatype Diff = Diff(rootChanged: bool, headChanged: bool, metadataChanged: bool, changedPaths: set<Path>)
  {
    predicate Quiet() {
      !rootChanged && !headChanged && !metadataChanged && changedPaths == {}
    }
  }

  function Look(prints: map<Path, int>, path: Path): Option<int> {
    if path in prints then Some(prints[path]) else None
  }

  predicate Differs(before: Snapshot, after: Snapshot, path: Path) {
    || Look(before.fingerprints, path) != Look(after.fingerprints, path)
    || Look(before.physical, path) != Look(after.physical, path)
  }

  function KnownPaths(s: Snapshot): set<Path> {
    s.fingerprints.Keys + s.physical.Keys
  }

  function DiffSnapshots(before: Snapshot, after: Snapshot): Diff {
    Diff(before.root != after.root, before.head != after.head,
         before.metadata != after.metadata || before.hidden != after.hidden,
         set p | p in KnownPaths(before) + KnownPaths(after) && Differs(before, after, p))
  }

  predicate Safe(s: Snapshot) {
    s.hidden == [] && s.unsafeMetadata == [] && s.unsafeWorktree == [] && s.unsafePhysical == []
  }

  /** The changed paths are all paths with another fingerprint, known to either snapshot or not. */
  lemma ChangedExactly(before: Snapshot, after: Snapshot, path: Path)
    ensures path in DiffSnapshots(before, after).changedPaths <==> Differs(before, after, path)
  {
  }

  // The path is known to both or to neither, with one fingerprint.
  predicate SameAt(before: map<Path, int>, after: map<Path, int>, path: Path) {
    if path in before then path in after && after[path] == before[path] else path !in after
  }

  /** A path has not changed exactly when its content and its physical state are the same, or absent, on both sides. */
  lemma UnchangedExactly(before: Snapshot, after: Snapshot, path: Path)
    ensures path !in DiffSnapshots(before, after).changedPaths
            <==> SameAt(before.fingerprints, after.fingerprints, path) && SameAt(before.physical, after.physical, path)
  {
  }

  /** A quiet second step can be left out: the difference to a third snapshot is the difference to it. */
  lemma QuietComposes(a: Snapshot, b: Snapshot, c: Snapshot)
    requires DiffSnapshots(b, c).Quiet()
    ensures DiffSnapshots(a, c) == DiffSnapshots(a, b)
    ensures DiffSnapshots(c, b).Quiet()
  {
    hide DiffSnapshots;
    forall p ensures Differs(a, c, p) == Differs(a, b, p) && !Differs(c, b, p) {
      ChangedExactly(b, c, p);
    }
    DiffsEqual(a, b, c);
  }

  lemma DiffsEqual(a: Snapshot, b: Snapshot, c: Snapshot)
    requires DiffSnapshots(b, c).Quiet() && forall p :: Differs(a, c, p) == Differs(a, b, p) && !Differs(c, b, p)
    ensures DiffSnapshots(a, c) == DiffSnapshots(a, b) && DiffSnapshots(c, b).Quiet()
  {
    forall p ensures p in DiffSnapshots(a, c).changedPaths <==> p in DiffSnapshots(a, b).changedPaths {
      ChangedExactly(a, c, p);
      ChangedExactly(a, b, p);
    }
  }

  // ---------- allowlists ----------

  predicate EndsWith(s: string, suffix: string) {
    |suffix| <= |s| && s[|s| - |suffix|..] == suffix
  }

  predicate Matches(path: Path, allowed: string) {
    if EndsWith(allowed, "/**") then
      var prefix := allowed[..|allowed| - 3];
      path == prefix || prefix + "/" <= path
    else path == allowed
  }

  predicate PathAllowed(path: Path, allowlist: seq<string>) {
    exists i :: 0 <= i < |allowlist| && Matches(path, allowlist[i])
  }

  function Segments(path: Path): (r: seq<string>)
    ensures r != []
  {
    var i := Slash(path);
    if i == |path| then [path] else [path[..i]] + Segments(path[i + 1..])
  }

  function Slash(path: Path): (i: nat)
    ensures i <= |path| && (forall j | 0 <= j < i :: path[j] != '/') && (i < |path| ==> path[i] == '/')
  {
    if path == "" || path[0] == '/' then 0 else 1 + Slash(path[1..])
  }

  lemma SlashIs(path: Path, i: nat)
    requires i <= |path| && (forall j | 0 <= j < i :: path[j] != '/') && (i < |path| ==> path[i] == '/')
    ensures Slash(path) == i
  {
  }

  predicate Under(path: Path, base: string) {
    path == base || base + "/" <= path
  }

  lemma UnderSegment(path: Path, base: string)
    requires Slash(base) == |base|
    ensures Under(path, base) <==> Segments(path)[0] == base
  {
    var i := Slash(path);
    if Under(path, base) {
      assert forall j | 0 <= j < |base| :: path[j] == base[j];
      assert |base| < |path| ==> path[|base|] == (base + "/")[|base|];
      SlashIs(path, |base|);
    }
    if Segments(path)[0] == base {
      assert path[..i] == base;
      assert i == |path| ==> path == base;
      assert i < |path| ==> path[..i + 1] == base + "/";
    }
  }

  lemma SlashAfter(head: string, tail: string)
    requires Slash(head) == |head|
    ensures var path := head + "/" + tail;
            Slash(path) == |head| && path[..|head|] == head && path[|head| + 1..] == tail
  {
    var path := head + "/" + tail;
    assert forall j | 0 <= j < |head| :: path[j] == head[j];
    assert path[|head|] == '/';
    hide Slash;
    SlashIs(path, |head|);
  }

  lemma CutAt(path: Path, i: nat)
    requires i < |path| && path[i] == '/'
    ensures path == path[..i] + "/" + path[i + 1..]
  {
  }

  // Below a first segment the rest is below the rest.
  lemma UnderStep(path: Path, head: string, rest: string)
    requires Slash(head) == |head|
    ensures var i := Slash(path);
            Under(path, head + "/" + rest) <==> i < |path| && path[..i] == head && Under(path[i + 1..], rest)
  {
    hide Under, Slash;
    if Under(path, head + "/" + rest) {
      UnderCut(path, head, rest);
      SlashAfter(head, path[|head| + 1..]);
    } else {
      var i := Slash(path);
      if i < |path| && path[..i] == head && Under(path[i + 1..], rest) {
        CutAt(path, i);
        UnderGlue(path[i + 1..], head, rest);
      }
    }
  }

  lemma UnderCut(path: Path, head: string, rest: string)
    requires Under(path, head + "/" + rest)
    ensures |head| + 1 <= |path| && path == head + "/" + path[|head| + 1..] && Under(path[|head| + 1..], rest)
  {
    var base := head + "/" + rest;
    if path == base {
      assert path[|head| + 1..] == rest;
    } else {
      var tail := path[|base| + 1..];
      assert path == base + "/" + tail;
      assert path[|head| + 1..] == rest + "/" + tail;
    }
  }

  lemma UnderGlue(path: Path, head: string, rest: string)
    requires Under(path, rest)
    ensures Under(head + "/" + path, head + "/" + rest)
  {
    if path != rest {
      var tail := path[|rest| + 1..];
      assert path == rest + "/" + tail;
      assert head + "/" + path == head + "/" + rest + "/" + tail;
    }
  }

  /** The textual test of a tree pattern is the test by whole segments: never a sibling of a longer name. */
  lemma {:induction false} TreeBySegments(path: Path, base: string)
    ensures Matches(path, base + "/**") <==> Segments(base) <= Segments(path)
    decreases |base|
  {
    assert EndsWith(base + "/**", "/**") && (base + "/**")[..|base|] == base;
    var i, k := Slash(base), Slash(path);
    if i == |base| {
      UnderSegment(path, base);
      assert Segments(base) == [base];
    } else {
      var head, rest := base[..i], base[i + 1..];
      assert base == head + "/" + rest;
      SlashIs(head, i);
      UnderStep(path, head, rest);
      assert Segments(base) == [head] + Segments(rest);
      if k < |path| {
        TreeBySegments(path[k + 1..], rest);
        assert EndsWith(rest + "/**", "/**") && (rest + "/**")[..|rest|] == rest;
        PrefixStep(head, Segments(rest), path[..k], Segments(path[k + 1..]));
      }
    }
  }

  lemma PrefixStep(a: string, s: seq<string>, b: string, t: seq<string>)
    ensures [a] + s <= [b] + t <==> a == b && s <= t
  {
    if [a] + s <= [b] + t {
      assert ([a] + s)[0] == ([b] + t)[0];
      assert s == ([a] + s)[1..] && ([b] + t)[1..|s| + 1] == t[..|s|];
    }
  }

  // A tree pattern and what it is a tree of.
  predicate IsTree(pattern: string, base: string) {
    pattern == base + "/**"
  }

  // The pattern is the path itself, or a tree of which the path is the root or below it.
  ghost predicate Covers(pattern: string, path: Path) {
    if exists base :: IsTree(pattern, base)
    then exists base :: IsTree(pattern, base) && Segments(base) <= Segments(path)
    else pattern == path
  }

  lemma MatchesExactly(path: Path, pattern: string)
    ensures Matches(path, pattern) <==> Covers(pattern, path)
  {
    if EndsWith(pattern, "/**") {
      var base := pattern[..|pattern| - 3];
      assert pattern == base + "/**";
      assert IsTree(pattern, base);
      TreeBySegments(path, base);
      assert forall other | IsTree(pattern, other) :: other == (other + "/**")[..|other|] == base;
    } else {
      forall base ensures !IsTree(pattern, base) {
        assert EndsWith(base + "/**", "/**");
      }
    }
    hide Segments;
  }

  /** A path is allowed exactly when it is in the list, or at or below the root of a tree that is, by whole segments. */
  lemma AllowedExactly(path: Path, allowlist: seq<string>)
    ensures PathAllowed(path, allowlist) <==> exists pattern :: pattern in allowlist && Covers(pattern, path)
  {
    forall pattern ensures Matches(path, pattern) <==> Covers(pattern, path) {
      MatchesExactly(path, pattern);
    }
    hide Matches, Covers;
  }
}
