/** The walk is exact: it succeeds exactly within its limits, and then holds every protected entry and no other. */
module TreeExact {
  import opened Common
  import opened FlowSnapshot
  import opened TreeWalk

  // ---------- paths name entries ----------

  predicate AllNames(segs: seq<string>) {
    forall i | 0 <= i < |segs| :: IsName(segs[i])
  }

  lemma {:induction false} JoinSegments(segs: seq<string>)
    requires segs != [] && AllNames(segs)
    ensures Segments(Join(segs)) == segs
  {
    var last := segs[|segs| - 1];
    if |segs| == 1 {
      NoSlash(last);
    } else {
      JoinSegments(segs[..|segs| - 1]);
      SegmentsSnoc(Join(segs[..|segs| - 1]), last);
      assert segs == segs[..|segs| - 1] + [last];
    }
  }

  lemma NoSlash(s: string)
    requires '/' !in s
    ensures Slash(s) == |s| && Segments(s) == [s]
  {
    SlashIs(s, |s|);
  }

  lemma SegmentsCons(head: string, rest: string)
    requires Slash(head) == |head|
    ensures Segments(head + "/" + rest) == [head] + Segments(rest)
  {
    var s := head + "/" + rest;
    SlashIs(s, |head|);
    assert s[..|head|] == head && s[|head| + 1..] == rest;
  }

  lemma {:induction false} SegmentsSnoc(a: string, b: string)
    requires '/' !in b
    ensures Segments(a + "/" + b) == Segments(a) + [b]
    decreases |a|
  {
    hide Segments, Slash;
    var i := Slash(a);
    if i == |a| {
      NoSlash(b);
      SegmentsCons(a, b);
      NoSlash(a);
    } else {
      var head, rest := a[..i], a[i + 1..];
      assert a == head + "/" + rest;
      SlashIs(head, i);
      SegmentsSnoc(rest, b);
      SegmentsCons(head, rest);
      SegmentsCons(head, rest + "/" + b);
      assert a + "/" + b == head + "/" + (rest + "/" + b);
    }
  }

  /** Different entries have different paths, so no fingerprint overwrites another. */
  lemma PathsDiffer(c: Config, s: seq<string>, t: seq<string>)
    requires s != [] && t != [] && AllNames(s) && AllNames(t)
    requires GitPath(c, Join(s)) == GitPath(c, Join(t))
    ensures s == t
  {
    JoinSegments(s);
    JoinSegments(t);
    if c.prefix != "" {
      assert Join(s) == GitPath(c, Join(s))[|c.prefix| + 1..];
      assert Join(t) == GitPath(c, Join(t))[|c.prefix| + 1..];
    }
  }

  // ---------- no entry is visited twice ----------

  predicate NoRepeats(visits: seq<Visit>) {
    forall i, j | 0 <= i < j < |visits| :: visits[i].segs != visits[j].segs
  }

  lemma NoRepeatsJoin(a: seq<Visit>, b: seq<Visit>)
    requires NoRepeats(a) && NoRepeats(b) && forall v, w | v in a && w in b :: v.segs != w.segs
    ensures NoRepeats(a + b)
  {
    forall i, j | 0 <= i < j < |a + b| ensures (a + b)[i].segs != (a + b)[j].segs {
      if i < |a| <= j {
        assert (a + b)[i] in a && (a + b)[j] in b;
      }
    }
  }

  lemma {:induction false} VisitsOnce(c: Config, children: seq<Child>, at: seq<string>, inherited: bool)
    requires WellFormed(children)
    ensures NoRepeats(Visits(c, children, at, inherited))
    decreases children
  {
    if children != [] {
      hide WellFormedNode;
      VisitOnce(c, children[0], at, inherited);
      VisitsOnce(c, children[1..], at, inherited);
      var a, b := VisitsOf(c, children[0], at, inherited), Visits(c, children[1..], at, inherited);
      forall v, w | v in a && w in b ensures v.segs != w.segs {
        VisitDeeper(c, children[0], at, inherited, v);
        VisitsDeeper(c, children[1..], at, inherited, w);
      }
      NoRepeatsJoin(a, b);
    }
  }

  lemma {:induction false} VisitOnce(c: Config, child: Child, at: seq<string>, inherited: bool)
    requires WellFormedNode(child)
    ensures NoRepeats(VisitsOf(c, child, at, inherited))
    decreases child
  {
    hide Excluded, GitPath;
    var here := at + [child.name];
    if child.node.Directory? {
      var prot := inherited || c.classify(GitPath(c, Join(here)));
      VisitsOnce(c, child.node.children, here, prot);
      forall w | w in Visits(c, child.node.children, here, prot) ensures w.segs != here {
        VisitsDeeper(c, child.node.children, here, prot, w);
      }
      NoRepeatsJoin([Visit(here, prot, child.node)], Visits(c, child.node.children, here, prot));
    }
  }

  // ---------- what is seen ----------

  predicate Deep(c: Config, visits: seq<Visit>) {
    exists v :: v in visits && |v.segs| > c.maxDepth
  }

  /** Counting stops exactly at a limit; otherwise every visit counts once. */
  lemma {:induction false} SeenCounts(c: Config, s: Scan, visits: seq<Visit>)
    requires Placed(visits) && s.entries <= c.maxEntries && s.deepest <= c.maxDepth
    ensures SeeAll(c, s, visits).Ok? <==> !Deep(c, visits) && s.entries + |visits| <= c.maxEntries
    ensures SeeAll(c, s, visits).Ok? ==>
              var t := SeeAll(c, s, visits).scan;
              && t.entries == s.entries + |visits| && s.deepest <= t.deepest <= c.maxDepth
              && (forall v | v in visits :: |v.segs| <= t.deepest)
              && (t.deepest == s.deepest || exists v :: v in visits && |v.segs| == t.deepest)
    decreases visits
  {
    if visits != [] {
      hide GitPath;
      if See(c, s, visits[0]).Ok? {
        SeenCounts(c, See(c, s, visits[0]).scan, visits[1..]);
      }
      assert Deep(c, visits) <==> |visits[0].segs| > c.maxDepth || Deep(c, visits[1..]) by {
        DeepStep(c, visits);
      }
    }
  }

  lemma DeepStep(c: Config, visits: seq<Visit>)
    requires visits != []
    ensures Deep(c, visits) <==> |visits[0].segs| > c.maxDepth || Deep(c, visits[1..])
  {
    if Deep(c, visits) {
      var v :| v in visits && |v.segs| > c.maxDepth;
      assert v == visits[0] || v in visits[1..];
    }
  }

  // A visit whose path this is.
  predicate At(c: Config, v: Visit, path: Path)
    requires v.segs != []
  {
    v.isProtected && GitPath(c, Join(v.segs)) == path
  }

  predicate SomeAt(c: Config, visits: seq<Visit>, path: Path)
    requires Placed(visits)
  {
    exists v :: v in visits && At(c, v, path)
  }

  predicate SomeUnsafeAt(c: Config, visits: seq<Visit>, path: Path)
    requires Placed(visits)
  {
    exists v :: v in visits && At(c, v, path) && IsUnsafe(v.node)
  }

  lemma SomeStep(c: Config, visits: seq<Visit>, path: Path)
    requires Placed(visits) && visits != []
    ensures SomeAt(c, visits, path) <==> At(c, visits[0], path) || SomeAt(c, visits[1..], path)
    ensures SomeUnsafeAt(c, visits, path)
            <==> (At(c, visits[0], path) && IsUnsafe(visits[0].node)) || SomeUnsafeAt(c, visits[1..], path)
  {
    hide At, IsUnsafe;
    assert forall v :: v in visits <==> v == visits[0] || v in visits[1..];
  }

  lemma {:induction false} SeenKeys(c: Config, s: Scan, visits: seq<Visit>, path: Path)
    requires Placed(visits) && SeeAll(c, s, visits).Ok?
    ensures var t := SeeAll(c, s, visits).scan;
            && (path in t.fingerprints <==> path in s.fingerprints || SomeAt(c, visits, path))
            && (path in t.unsafePaths <==> path in s.unsafePaths || SomeUnsafeAt(c, visits, path))
            && (!SomeAt(c, visits, path) && path in s.fingerprints ==> t.fingerprints[path] == s.fingerprints[path])
    decreases visits
  {
    if visits != [] {
      SeenKeys(c, See(c, s, visits[0]).scan, visits[1..], path);
      SomeStep(c, visits, path);
      hide GitPath, PrintOf, IsUnsafe, SomeAt, SomeUnsafeAt;
    }
  }

  predicate OneAt(c: Config, visits: seq<Visit>, path: Path, v: Visit)
    requires Placed(visits)
  {
    forall w | w in visits && At(c, w, path) :: w == v
  }

  lemma {:induction false} SeenValue(c: Config, s: Scan, visits: seq<Visit>, path: Path, v: Visit)
    requires Placed(visits) && SeeAll(c, s, visits).Ok? && v in visits && At(c, v, path) && OneAt(c, visits, path, v)
    ensures var t := SeeAll(c, s, visits).scan; path in t.fingerprints && t.fingerprints[path] == PrintOf(v.node)
    decreases visits
  {
    var next := See(c, s, visits[0]).scan;
    SeenKeys(c, next, visits[1..], path);
    hide GitPath, PrintOf, IsUnsafe;
    if SomeAt(c, visits[1..], path) {
      var w :| w in visits[1..] && At(c, w, path);
      assert w == v;
      SeenValue(c, next, visits[1..], path, v);
    } else {
      assert visits[0] == v;
    }
  }

  // ---------- the theorem ----------

  function AllVisits(c: Config, children: seq<Child>): (r: seq<Visit>)
    ensures Placed(r)
  {
    VisitsPlaced(c, children, [], false);
    Visits(c, children, [], false)
  }

  // What a whole scan returns; the walk method computes it.
  function Scanned(c: Config, children: seq<Child>): Result {
    SeeAll(c, NOTHING_SEEN, AllVisits(c, children))
  }

  // The entry is there, behind real directories, and nothing on its path is excluded.
  predicate Reached(c: Config, children: seq<Child>, segs: seq<string>) {
    segs != [] && Resolve(children, segs).Some? && Clear(c, [], segs)
  }

  predicate ReachedProtected(c: Config, children: seq<Child>, segs: seq<string>) {
    Reached(c, children, segs) && Guarded(c, [], segs)
  }

  function VisitAt(c: Config, children: seq<Child>, segs: seq<string>): Visit
    requires Reached(c, children, segs)
  {
    Visit(segs, Guarded(c, [], segs), Resolve(children, segs).value)
  }

  /** The visits are exactly the reached entries. */
  lemma ReachedExactly(c: Config, children: seq<Child>, v: Visit)
    requires WellFormed(children)
    ensures v in AllVisits(c, children) <==> Reached(c, children, v.segs) && v == VisitAt(c, children, v.segs)
  {
    hide Clear, Guarded, WellFormed;
    if v.segs != [] {
      assert [] + v.segs == v.segs;
      VisitsExactly(c, children, [], false, v.segs, v);
    }
  }

  lemma {:induction false} ResolveNames(children: seq<Child>, segs: seq<string>)
    requires WellFormed(children) && segs != [] && Resolve(children, segs).Some?
    ensures AllNames(segs)
    decreases |segs|
  {
    hide IsName;
    var i := FoundAt(children, segs[0]);
    assert WellFormedNode(children[i]);
    if |segs| > 1 {
      ResolveNames(children[i].node.children, segs[1..]);
      assert forall k | 0 < k < |segs| :: segs[k] == segs[1..][k - 1];
    }
  }

  lemma {:induction false} FoundAt(children: seq<Child>, name: string) returns (i: nat)
    requires FindChild(children, name).Some?
    ensures i < |children| && children[i].name == name && FindChild(children, name) == Some(children[i].node)
  {
    if children[0].name == name {
      i := 0;
    } else {
      i := FoundAt(children[1..], name);
      i := i + 1;
    }
  }

  /** A scan returns exactly when no reached entry is too deep and all of them fit the entry budget. */
  lemma ScanReturnsExactly(c: Config, children: seq<Child>)
    requires WellFormed(children)
    ensures Scanned(c, children).Ok?
            <==> && (forall segs | Reached(c, children, segs) :: |segs| <= c.maxDepth)
                 && |AllVisits(c, children)| <= c.maxEntries
    ensures Scanned(c, children).Ok? ==>
              var s := Scanned(c, children).scan;
              s.entries == |AllVisits(c, children)| <= c.maxEntries && s.deepest <= c.maxDepth
  {
    var visits := AllVisits(c, children);
    SeenCounts(c, NOTHING_SEEN, visits);
    hide WellFormed, Reached;
    if !Deep(c, visits) {
      forall segs | Reached(c, children, segs) ensures |segs| <= c.maxDepth {
        ReachedExactly(c, children, VisitAt(c, children, segs));
      }
    } else {
      var v :| v in visits && |v.segs| > c.maxDepth;
      ReachedExactly(c, children, v);
    }
  }

  /** The count is the number of reached entries: each is visited once. */
  lemma CountExact(c: Config, children: seq<Child>)
    requires WellFormed(children)
    ensures var paths := set v | v in AllVisits(c, children) :: v.segs;
            |paths| == |AllVisits(c, children)| && forall segs :: segs in paths <==> Reached(c, children, segs)
  {
    var visits := AllVisits(c, children);
    VisitsOnce(c, children, [], false);
    DistinctCount(visits);
    hide WellFormed, Reached;
    forall segs ensures segs in (set v | v in visits :: v.segs) <==> Reached(c, children, segs) {
      if Reached(c, children, segs) {
        ReachedExactly(c, children, VisitAt(c, children, segs));
        assert VisitAt(c, children, segs).segs == segs;
      }
      if segs in (set v | v in visits :: v.segs) {
        var v :| v in visits && v.segs == segs;
        ReachedExactly(c, children, v);
      }
    }
  }

  lemma {:induction false} DistinctCount(visits: seq<Visit>)
    requires NoRepeats(visits)
    ensures |set v | v in visits :: v.segs| == |visits|
  {
    if visits != [] {
      var n := |visits| - 1;
      DistinctCount(visits[..n]);
      var before := set v | v in visits[..n] :: v.segs;
      assert (set v | v in visits :: v.segs) == before + {visits[n].segs};
      assert visits[n].segs !in before;
    }
  }

  /** The fingerprint keys are exactly the reached entries that are protected or below a protected one. */
  lemma FingerprintsExact(c: Config, children: seq<Child>, path: Path)
    requires WellFormed(children) && Scanned(c, children).Ok?
    ensures path in Scanned(c, children).scan.fingerprints
            <==> exists segs :: ReachedProtected(c, children, segs) && path == GitPath(c, Join(segs))
  {
    var visits := AllVisits(c, children);
    SeenKeys(c, NOTHING_SEEN, visits, path);
    hide WellFormed, Guarded, Clear, GitPath;
    if SomeAt(c, visits, path) {
      var v :| v in visits && At(c, v, path);
      ReachedExactly(c, children, v);
      assert ReachedProtected(c, children, v.segs);
    }
    if segs :| ReachedProtected(c, children, segs) && path == GitPath(c, Join(segs)) {
      ReachedExactly(c, children, VisitAt(c, children, segs));
      assert At(c, VisitAt(c, children, segs), path);
    }
  }

  /** Excluded are exactly the entries of an excluded name and those at or below an excluded path, by whole segments. */
  lemma ExcludedExactly(c: Config, segs: seq<string>)
    requires segs != [] && AllNames(segs)
    ensures Excluded(c, Join(segs), segs[|segs| - 1])
            <==> || segs[|segs| - 1] in c.excludedNames
                 || exists p :: p in c.excludedPaths && Segments(p) <= segs
  {
    JoinSegments(segs);
    ExcludedUnder(c, Join(segs), segs[|segs| - 1]);
    hide Segments, Join, Excluded, Under;
    forall p ensures Under(Join(segs), p) <==> Segments(p) <= segs {
      AtOrBelow(Join(segs), p);
    }
  }

  lemma ExcludedUnder(c: Config, rel: string, name: string)
    ensures Excluded(c, rel, name) <==> name in c.excludedNames || exists p :: p in c.excludedPaths && Under(rel, p)
  {
    if i :| 0 <= i < |c.excludedPaths| && (rel == c.excludedPaths[i] || c.excludedPaths[i] + "/" <= rel) {
      assert c.excludedPaths[i] in c.excludedPaths && Under(rel, c.excludedPaths[i]);
    }
  }

  lemma AtOrBelow(rel: string, path: string)
    ensures Under(rel, path) <==> Segments(path) <= Segments(rel)
  {
    TreeBySegments(rel, path);
    assert EndsWith(path + "/**", "/**") && (path + "/**")[..|path|] == path;
    hide Segments;
  }

  /** Two entries have one print exactly when they are the same but for the children of a directory. */
  lemma PrintExactly(n: Node, m: Node)
    ensures PrintOf(n) == PrintOf(m) <==> n == m || (n.Directory? && m.Directory? && n.mode == m.mode)
  {
  }

  /** Safe are exactly the directories and the regular files with no other name. */
  lemma SafeExactly(n: Node)
    ensures !IsUnsafe(n) <==> n.Directory? || (n.RegularFile? && n.links <= 1)
  {
  }

  /**
   Two scans give one fingerprint at a path exactly when the entries there are the same but for the children of a
   directory; and unsafe are exactly the protected entries that are neither directories nor files of a single name.
   */
  lemma FingerprintsTell(c: Config, before: seq<Child>, after: seq<Child>, segs: seq<string>)
    requires WellFormed(before) && Scanned(c, before).Ok? && ReachedProtected(c, before, segs)
    requires WellFormed(after) && Scanned(c, after).Ok? && ReachedProtected(c, after, segs)
    ensures var path, s, t := GitPath(c, Join(segs)), Scanned(c, before).scan, Scanned(c, after).scan;
            var n, m := Resolve(before, segs).value, Resolve(after, segs).value;
            && path in s.fingerprints && path in t.fingerprints
            && (s.fingerprints[path] == t.fingerprints[path]
                <==> n == m || (n.Directory? && m.Directory? && n.mode == m.mode))
            && (path in s.unsafePaths <==> !n.Directory? && (n.RegularFile? ==> n.links > 1))
  {
    FingerprintOf(c, before, segs);
    FingerprintOf(c, after, segs);
    PrintExactly(Resolve(before, segs).value, Resolve(after, segs).value);
    SafeExactly(Resolve(before, segs).value);
    hide PrintOf, IsUnsafe, WellFormed, ReachedProtected, Scanned, GitPath;
  }

  /** Each fingerprint is that of its own entry, and unsafe are exactly the protected links, aliases and specials. */
  lemma FingerprintOf(c: Config, children: seq<Child>, segs: seq<string>)
    requires WellFormed(children) && Scanned(c, children).Ok? && ReachedProtected(c, children, segs)
    ensures var s := Scanned(c, children).scan; var path := GitPath(c, Join(segs));
            && path in s.fingerprints && s.fingerprints[path] == PrintOf(Resolve(children, segs).value)
            && (path in s.unsafePaths <==> IsUnsafe(Resolve(children, segs).value))
  {
    var visits, v, path := AllVisits(c, children), VisitAt(c, children, segs), GitPath(c, Join(segs));
    ReachedExactly(c, children, v);
    assert At(c, v, path);
    forall w | w in visits && At(c, w, path) ensures w == v {
      ReachedExactly(c, children, w);
      ResolveNames(children, segs);
      ResolveNames(children, w.segs);
      PathsDiffer(c, w.segs, segs);
    }
    hide WellFormed, Guarded, Clear, GitPath, IsUnsafe, PrintOf;
    SeenValue(c, NOTHING_SEEN, visits, path, v);
    SeenKeys(c, NOTHING_SEEN, visits, path);
  }
}
