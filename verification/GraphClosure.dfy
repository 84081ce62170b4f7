/** A scan that is not degraded has found exactly the reachable closure. */
module GraphClosure {
  import opened Common
  import opened Transcript
  import opened GraphModel
  import opened GraphSteps
  import opened GraphInvariant
  import opened GraphLoop

  // ---------- the root phase ----------

  ghost predicate RootPhase(w: World, c: Config, s: Scan) {
    && ScanInv(w, c, s) && s.graph.agents == [] && s.graph.attempted == {}
    && s.graph.queued <= Universe(w, c)
  }

  function RootJoined(g: Graph, root: Root): Graph {
    g.(roots := g.roots + [root], accepted := g.accepted + {root.id}, depths := g.depths[root.id := 0])
  }

  function RootEdges(root: Root): seq<Edge> {
    if root.summary.Some? then root.summary.value.edges else []
  }

  lemma RootJoinedKeeps(w: World, c: Config, g: Graph, root: Root)
    requires GraphInv(w, c, g) && g.agents == [] && RootOk(w, c, root)
    requires root.id !in g.RootIds() && root.id != "" && |g.roots| < c.maxNodes
    ensures var h := RootJoined(g, root); Ids(c, h) && Forest(w, c, h) && Origins(w, h)
  {
    var h := RootJoined(g, root);
    hide RootOk, Handled, Sprung;
    assert forall r | r in h.roots :: r in g.roots || r == root;
    RootIdsOf(g, root);
    RootJoinedOrigins(w, g, root);
    hide Origins;
  }

  lemma RootIdsOf(g: Graph, root: Root)
    ensures RootJoined(g, root).RootIds() == g.RootIds() + {root.id}
  {
    var h := RootJoined(g, root);
    assert forall r | r in h.roots :: r in g.roots || r == root;
    assert forall r | r in g.roots :: r in h.roots;
    assert root in h.roots;
  }

  lemma RootJoinedOrigins(w: World, g: Graph, root: Root)
    requires Origins(w, g)
    ensures Origins(w, RootJoined(g, root))
  {
    assert forall r | r in g.roots :: r in RootJoined(g, root).roots;
    assert forall n: nat, child | n <= |g.agents| && Sprung(w, g, n, child) :: Sprung(w, RootJoined(g, root), n, child);
  }

  lemma WithRootKeeps(w: World, c: Config, g: Graph, root: Root)
    requires GraphInv(w, c, g) && g.agents == [] && RootOk(w, c, root) && g.queued <= Universe(w, c)
    requires root.id !in g.RootIds() && root.id != "" && |g.roots| < c.maxNodes
    ensures var h := WithRoot(g, root);
            && GraphInv(w, c, h) && h.roots == g.roots + [root] && h.agents == [] && h.attempted == g.attempted
            && h.queued <= Universe(w, c)
  {
    var j := RootJoined(g, root);
    RootJoinedKeeps(w, c, g, root);
    if root.summary.Some? {
      ReadWithinUniverse(w, c, root.path, root.id, root.summary.value);
    }
    assert root in j.roots;
    assert forall e | e in RootEdges(root) && e.kind == Started :: Sprung(w, j, |j.agents|, e.child);
    hide Universe, Ids, Forest, Origins, RootOk;
    QueueingKeeps(w, c, j, RootEdges(root));
    EnqueueBounded(w, c, j, RootEdges(root));
    var h := WithRoot(g, root);
    assert h == EnqueueAll(j, RootEdges(root));
    hide EnqueueAll, WithRoot;
    RequeuedRootHandled(w, g, root, h);
  }

  lemma RequeuedRootHandled(w: World, g: Graph, root: Root, h: Graph)
    requires Handled(w, g) && Requeued(RootJoined(g, root), h, RootEdges(root))
    ensures Handled(w, h)
  {
    assert h.roots == g.roots + [root] && root in h.roots;
    assert forall r | r in g.roots :: r in h.roots;
    KeysHandledGrow(w, g, h, RootEdges(root));
    hide KeysHandled, Met, InQueue;
    assert forall r | r in h.roots :: r in g.roots || r == root;
  }

  // The roots are those of the paths, one by one, each with its transcript read.
  ghost predicate Matches(roots: seq<Root>, paths: seq<Path>) {
    |roots| == |paths| && forall i | 0 <= i < |paths| :: roots[i].path == paths[i] && roots[i].summary.Some?
  }

  lemma AddRootKeeps(w: World, c: Config, s: Scan, path: Path) returns (added: seq<Root>)
    requires RootPhase(w, c, s)
    ensures var t := AddRoot(w, c, s, path);
            && RootPhase(w, c, t) && Louder(c, s, t)
            && (t.diagnostics != [] || (t.graph.roots == s.graph.roots + added && Matches(added, [path])))
  {
    var t := AddRoot(w, c, s, path);
    added := [];
    hide ScanInv, GraphInv, Universe;
    if path in w.files && w.files[path].meta.Some? && w.files[path].meta.value.id != "" {
      var meta := w.files[path].meta.value;
      var s1 := s.(sources := s.sources[path := w.files[path].stat]);
      if !meta.isSubagent && meta.id !in s1.graph.RootIds() && |s1.graph.roots| < c.maxNodes {
        ReadSummaryQuiet(w, c, s1, path, meta.id, ParentMetaInvalid);
        var (s2, summary) := ReadSummary(w, c, s1, path, meta.id, ParentMetaInvalid);
        var root := Root(meta.id, path, summary);
        ScanParts(w, c, s);
        hide ReadSummary;
        WithRootKeeps(w, c, s.graph, root);
        added := [root];
        hide WithRoot;
        ScanWhole(w, c, t);
      } else {
        QuietRoot(w, c, s, t);
      }
    } else {
      QuietRoot(w, c, s, t);
    }
  }

  lemma ScanParts(w: World, c: Config, s: Scan)
    requires ScanInv(w, c, s)
    ensures GraphInv(w, c, s.graph) && Noted(s) && WithinLimits(c, s)
  {
  }

  lemma ScanWhole(w: World, c: Config, s: Scan)
    requires GraphInv(w, c, s.graph) && Noted(s) && WithinLimits(c, s) && s.graph.attempted == {}
    ensures ScanInv(w, c, s)
  {
  }

  lemma QuietRoot(w: World, c: Config, s: Scan, t: Scan)
    requires RootPhase(w, c, s) && t.graph == s.graph && t.diagnostics != [] && t.stats == s.stats
    ensures RootPhase(w, c, t)
  {
  }

  lemma QuietKeepsPhase(w: World, c: Config, s: Scan, t: Scan)
    requires RootPhase(w, c, s) && Quiet(c, s, t)
    ensures RootPhase(w, c, t)
  {
    hide GraphInv;
  }

  lemma CheckPhase(w: World, c: Config, s: Scan)
    requires RootPhase(w, c, s) && !s.aborted
    ensures RootPhase(w, c, Check(c, s)) && Louder(c, s, Check(c, s)) && Check(c, s).graph.roots == s.graph.roots
    ensures Check(c, s).aborted ==> Check(c, s).diagnostics != []
  {
    QuietKeepsPhase(w, c, s, Check(c, s));
  }

  lemma PhaseNoted(w: World, c: Config, s: Scan)
    requires RootPhase(w, c, s) && s.aborted
    ensures s.diagnostics != []
  {
  }

  lemma MatchesAppend(a: seq<Root>, b: seq<Root>, paths: seq<Path>)
    requires paths != [] && Matches(a, paths[..1]) && Matches(b, paths[1..])
    ensures Matches(a + b, paths)
  {
    forall i | 0 <= i < |paths|
      ensures (a + b)[i].path == paths[i] && (a + b)[i].summary.Some?
    {
      assert if i == 0 then paths[i] == paths[..1][0] else paths[i] == paths[1..][i - 1];
    }
  }

  lemma {:induction false} AddRootsKeeps(w: World, c: Config, s: Scan, paths: seq<Path>) returns (added: seq<Root>)
    requires RootPhase(w, c, s)
    ensures var t := AddRoots(w, c, s, paths);
            && RootPhase(w, c, t) && Louder(c, s, t)
            && (t.diagnostics != [] || (t.graph.roots == s.graph.roots + added && Matches(added, paths)))
    decreases paths
  {
    hide RootPhase, AddRoot, Check;
    added := [];
    if paths == [] {
      assert s.graph.roots + [] == s.graph.roots;
    } else if s.aborted {
      PhaseNoted(w, c, s);
    } else {
      var s1 := Check(c, s);
      CheckPhase(w, c, s);
      if !s1.aborted {
        var first := AddRootKeeps(w, c, s1, paths[0]);
        var rest := AddRootsKeeps(w, c, AddRoot(w, c, s1, paths[0]), paths[1..]);
        added := first + rest;
        if AddRoots(w, c, s, paths).diagnostics == [] {
          assert paths[..1] == [paths[0]];
          MatchesAppend(first, rest, paths);
          assert s.graph.roots + first + rest == s.graph.roots + (first + rest);
        }
        hide Matches;
      }
    }
  }

  // Without a diagnostic every root path was taken, and its transcript read.
  ghost predicate AllRoots(w: World, s: Scan) {
    s.diagnostics == [] ==> Matches(s.graph.roots, w.roots)
  }

  lemma StartIsGood(w: World, c: Config, diagnostics: seq<Code>)
    ensures RootPhase(w, c, START.(diagnostics := diagnostics))
  {
  }

  /** After roots and signals: the invariant, every signal queued, and nothing left out without a diagnostic. */
  lemma BeginKeeps(w: World, c: Config)
    ensures var s := Begin(w, c);
            && ScanInv(w, c, s) && s.graph.queued <= Universe(w, c)
            && Queued(w.signals, s.graph.queued) && AllRoots(w, s)
  {
    var s0 := if c.cacheMalformed then START.Diagnose(CacheInvalid) else START;
    var s1 := if w.roots == [] then s0.Diagnose(ParentMetaInvalid) else s0;
    StartIsGood(w, c, s1.diagnostics);
    assert s1 == START.(diagnostics := s1.diagnostics);
    QuietKeepsPhase(w, c, s1, Check(c, s1));
    hide RootPhase;
    var added := AddRootsKeeps(w, c, Check(c, s1), w.roots);
    var s2 := AddRoots(w, c, Check(c, s1), w.roots);
    assert [] + added == added;
    hide Matches;
    hide AddRoots, Check;
    RootPhaseParts(w, c, s2);
    hide ScanInv, Universe;
    SignalsKeep(w, c, s2);
  }

  lemma RootPhaseParts(w: World, c: Config, s: Scan)
    requires RootPhase(w, c, s)
    ensures ScanInv(w, c, s) && s.graph.queued <= Universe(w, c) && s.graph.attempted == {}
  {
  }

  lemma SignalsKeep(w: World, c: Config, s: Scan)
    requires ScanInv(w, c, s) && s.graph.queued <= Universe(w, c) && s.graph.attempted == {}
    ensures var h := EnqueueAll(s.graph, w.signals);
            && ScanInv(w, c, s.(graph := h)) && h.queued <= Universe(w, c) && h.roots == s.graph.roots
            && Queued(w.signals, h.queued)
  {
    var h := EnqueueAll(s.graph, w.signals);
    assert forall e | e in w.signals && e.kind == Started :: Sprung(w, s.graph, |s.graph.agents|, e.child);
    EnqueueBounded(w, c, s.graph, w.signals);
    hide Ids, Forest, Origins, Universe;
    QueueingKeeps(w, c, s.graph, w.signals);
    hide EnqueueAll;
    SignalsHandled(w, s.graph, h);
  }

  lemma SignalsHandled(w: World, g: Graph, h: Graph)
    requires Handled(w, g) && Requeued(g, h, w.signals)
    ensures Handled(w, h)
  {
    KeysHandledGrow(w, g, h, w.signals);
    hide KeysHandled, Met, InQueue;
  }
}
