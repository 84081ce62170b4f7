/** Where keys clash, a child is lost without a diagnostic: the hypothesis of the exact closure cannot be dropped. */
module GraphClash {
  import opened Common
  import opened Usage
  import opened Transcript
  import opened GraphModel
  import opened GraphSteps
  import opened GraphInvariant
  import opened GraphLoop
  import opened GraphClosure
  import opened GraphKeys
  import opened GraphTheorems

  const STAT := Stat(0, 0)
  const OFFLINE := Config(false, n => false, "", map[], false, 3, 0, 0, 0)

  function Start(parent: Id, child: Id): Edge {
    Edge(parent, child, Started, false, "")
  }

  function Starting(edges: seq<Edge>): Summary {
    Summary(edges, 0, RolloutUsage("", {}, NOTHING, []))
  }

  function RootFile(id: Id, child: Id): File {
    File(STAT, Some(Meta(id, false, "", "", 0)), Some(Starting([Start(id, child)])), 0, None)
  }

  function AgentFile(id: Id, parent: Id): File {
    File(STAT, Some(Meta(id, true, parent, "", 0)), Some(Starting([])), 0, None)
  }

  // Roots with one child each, of which only the agent's file is found.
  function TwoRoots(p: Id, x: Id, q: Id, y: Id): World {
    World(map["p" := RootFile(p, x), "q" := RootFile(q, y), "x" := AgentFile(x, p)], ["p", "q"], [],
          e => ["x"], e => 0, n => [], paths => paths, path => Some(STAT))
  }

  // A root and a signal that names no parent.
  function RootAndSignal(q: Id, y: Id, x: Id): World {
    World(map["q" := RootFile(q, y), "y" := AgentFile(y, q)], ["q"], [Edge("", x, Started, true, "")],
          e => ["y"], e => 0, n => [], paths => paths, path => Some(STAT))
  }

  // ---------- one offline step after another ----------

  lemma ReadsContent(w: World, s: Scan, path: Path, id: Id, code: Code)
    requires path in w.files && !s.aborted && w.files[path].stat == STAT && w.files[path].chunks == 0
    requires w.files[path].content.Some? && w.files[path].content.value.malformedLines == 0
    ensures var (t, a) := ReadSummary(w, OFFLINE, s, path, id, code);
            && a == w.files[path].content && t.graph == s.graph && t.sources == s.sources
            && t.diagnostics == s.diagnostics && !t.aborted
  {
  }

  function OneChild(id: Id, path: Path, child: Id): Root {
    Root(id, path, Some(Starting([Start(id, child)])))
  }

  lemma AddsRoot(w: World, s: Scan, path: Path, id: Id, child: Id) returns (t: Scan)
    requires path in w.files && w.files[path] == RootFile(id, child) && !s.aborted && id != ""
             && id !in s.graph.RootIds()
    requires |s.graph.roots| < 3
    ensures t == AddRoot(w, OFFLINE, s, path) && !t.aborted && t.diagnostics == s.diagnostics
    ensures t.graph == Enqueue(RootJoined(s.graph, OneChild(id, path, child)), Start(id, child))
    ensures t.sources == s.sources[path := STAT]
  {
    t := AddRoot(w, OFFLINE, s, path);
    ReadsContent(w, s.(sources := s.sources[path := STAT]), path, id, ParentMetaInvalid);
    hide ReadSummary;
    QueuesOne(RootJoined(s.graph, OneChild(id, path, child)), Start(id, child));
  }

  lemma QueuesOne(g: Graph, e: Edge)
    ensures EnqueueAll(g, [e]) == Enqueue(g, e) && EnqueueAll(g, []) == g
  {
    assert [e][1..] == [];
  }

  lemma Admits(w: World, s: Scan, e: Edge, path: Path, parent: Id) returns (t: Scan)
    requires !s.aborted && s.graph.queue == [e] && e.child !in s.graph.RootIds() && e.child !in s.graph.accepted
    requires e.child !in s.graph.attempted && w.direct(e) == [path] && path in w.files
    requires w.files[path] == AgentFile(e.child, parent) && parent != "" && parent in s.graph.accepted
    requires e.parent == parent && |s.graph.roots| + |s.graph.agents| < 3
    ensures t == Turn(w, OFFLINE, s) && !t.aborted && t.diagnostics == s.diagnostics
    ensures t.graph.queue == [] && t.graph.roots == s.graph.roots && |t.graph.agents| == |s.graph.agents| + 1
    ensures AgentIds(t.graph.agents) == AgentIds(s.graph.agents) + {e.child}
    ensures t.sources == s.sources[path := STAT]
  {
    t := Turn(w, OFFLINE, s);
    var g := s.graph.(queue := [], attempted := s.graph.attempted + {e.child});
    assert s.graph.queue[1..] == [];
    var s1 := s.(graph := g, sources := s.sources[path := STAT]);
    assert [path][1..] == [] && [] + [path] == [path];
    assert Validate(w, s.(graph := g), e.child, [path], []) == (s1, [path]);
    ReadsContent(w, s1, path, e.child, ChildMetaInvalid);
    hide ReadSummary;
    var agent := Agent(e.child, parent, DepthOf(g, w.files[path].meta.value), path, Starting([]));
    QueuesOne(WithAgent(g, agent), e);
    assert t.graph == WithAgent(g, agent);
    assert AgentIds(g.agents + [agent]) == AgentIds(g.agents) + {agent.id};
  }

  // ---------- the whole scan ----------

  lemma LastTurn(w: World, s: Scan)
    requires Noted(s) && s.graph.queued <= Universe(w, OFFLINE) && !s.aborted && s.graph.queue != []
    requires var t := Turn(w, OFFLINE, Check(OFFLINE, s)); t.graph.queue == []
    ensures Loop(w, OFFLINE, s) == Turn(w, OFFLINE, Check(OFFLINE, s))
  {
    hide Turn, Universe;
    TurnProgress(w, OFFLINE, Check(OFFLINE, s));
  }

  lemma StaysQuiet(w: World, s: Scan)
    requires !s.aborted && s.diagnostics == [] && forall path | path in s.sources ::
             w.laterStat(path) == Some(s.sources[path])
    ensures Recheck(w, OFFLINE, s).diagnostics == [] && Recheck(w, OFFLINE, s).graph == s.graph
  {
    assert ChangedSources(w, Check(OFFLINE, s)) == {};
  }

  lemma ResultOf(w: World, e: Edge, path: Path, parent: Id)
    requires var s := Begin(w, OFFLINE);
             && !s.aborted && s.diagnostics == [] && s.graph.queue == [e] && s.graph.agents == []
                 && s.graph.attempted == {}
             && e.child !in s.graph.RootIds() && e.child !in s.graph.accepted && parent in s.graph.accepted
             && |s.graph.roots| < 3 && forall p | p in s.sources :: s.sources[p] == STAT
    requires w.direct(e) == [path] && path in w.files && w.files[path] == AgentFile(e.child, parent)
    requires e.parent == parent && parent != "" && forall p :: w.laterStat(p) == Some(STAT)
    ensures var r := Result(w, OFFLINE);
            && VerdictOf(r) == Complete && r.graph.roots == Begin(w, OFFLINE).graph.roots
            && AgentIds(r.graph.agents) == {e.child}
  {
    var s := Begin(w, OFFLINE);
    BeginKeeps(w, OFFLINE);
    var t := Admits(w, Check(OFFLINE, s), e, path, parent);
    hide Begin, Turn, Universe;
    LastTurn(w, s);
    StaysQuiet(w, t);
    hide Loop, Recheck;
    assert AgentIds(s.graph.agents) == {};
  }

  lemma AddsTwo(w: World, s: Scan, a: Path, b: Path)
    requires !s.aborted && !AddRoot(w, OFFLINE, Check(OFFLINE, s), a).aborted
    ensures AddRoots(w, OFFLINE, s, [a, b])
            == AddRoot(w, OFFLINE, Check(OFFLINE, AddRoot(w, OFFLINE, Check(OFFLINE, s), a)), b)
  {
    hide AddRoot;
    assert [a, b][1..] == [b];
    AddsLast(w, AddRoot(w, OFFLINE, Check(OFFLINE, s), a), b);
  }

  lemma AddsLast(w: World, s: Scan, a: Path)
    requires !s.aborted
    ensures AddRoots(w, OFFLINE, s, [a]) == AddRoot(w, OFFLINE, Check(OFFLINE, s), a)
  {
    hide AddRoot;
    assert [a][1..] == [];
  }

  // The graph after a root whose key is new, and after one whose key is taken.
  lemma Joins(g: Graph, id: Id, path: Path, child: Id)
    requires child != ""
    ensures var h := Enqueue(RootJoined(g, OneChild(id, path, child)), Start(id, child));
            var first := Key(id, child) !in g.queued;
            && h.roots == g.roots + [OneChild(id, path, child)] && h.RootIds() == g.RootIds() + {id}
            && h.accepted == g.accepted + {id} && h.agents == g.agents && h.attempted == g.attempted
            && h.queue == (if first then g.queue + [Start(id, child)] else g.queue)
            && h.queued == g.queued + {Key(id, child)}
  {
    KeyOf(Start(id, child));
    RootIdsOf(g, OneChild(id, path, child));
    hide EdgeKey, Key;
  }

  lemma AddsPair(w: World, p: Id, x: Id, q: Id, y: Id)
    requires p != "" && q != "" && p != q && x != "" && y != "" && Key(p, x) == Key(q, y)
    requires "p" in w.files && w.files["p"] == RootFile(p, x) && "q" in w.files && w.files["q"] == RootFile(q, y)
    ensures var s := AddRoots(w, OFFLINE, Check(OFFLINE, START), ["p", "q"]);
            && !s.aborted && s.diagnostics == [] && s.graph.queue == [Start(p, x)] && s.graph.agents == []
            && s.graph.attempted == {} && s.graph.accepted == {p, q} && s.graph.RootIds() == {p, q}
            && (forall path | path in s.sources :: s.sources[path] == STAT)
            && s.graph.roots == [OneChild(p, "p", x), OneChild(q, "q", y)]
  {
    var s0 := Check(OFFLINE, START);
    assert START.graph.RootIds() == {};
    var s1 := AddsRoot(w, Check(OFFLINE, s0), "p", p, x);
    Joins(START.graph, p, "p", x);
    assert START.graph.queue + [Start(p, x)] == [Start(p, x)];
    assert START.graph.roots + [OneChild(p, "p", x)] == [OneChild(p, "p", x)];
    hide AddRoot, AddRoots, EdgeKey, Enqueue, RootJoined, Key, Graph.RootIds, RootFile;
    var s2 := AddsRoot(w, Check(OFFLINE, s1), "q", q, y);
    Joins(s1.graph, q, "q", y);
    AddsTwo(w, s0, "p", "q");
    assert [OneChild(p, "p", x)] + [OneChild(q, "q", y)] == [OneChild(p, "p", x), OneChild(q, "q", y)];
  }

  lemma TwoRootsBegin(p: Id, x: Id, q: Id, y: Id)
    requires p != "" && q != "" && p != q && x != "" && y != "" && Key(p, x) == Key(q, y)
    ensures var s := Begin(TwoRoots(p, x, q, y), OFFLINE);
            && !s.aborted && s.diagnostics == [] && s.graph.queue == [Start(p, x)] && s.graph.agents == []
            && s.graph.attempted == {} && s.graph.accepted == {p, q} && s.graph.RootIds() == {p, q}
            && (forall path | path in s.sources :: s.sources[path] == STAT)
            && s.graph.roots == [OneChild(p, "p", x), OneChild(q, "q", y)]
  {
    hide AddRoots, RootFile, AgentFile, Key, Check;
    AddsPair(TwoRoots(p, x, q, y), p, x, q, y);
    QueuesOne(AddRoots(TwoRoots(p, x, q, y), OFFLINE, Check(OFFLINE, START), ["p", "q"]).graph, Start(p, x));
    hide EnqueueAll, Graph.RootIds;
  }

  lemma SignalBegin(q: Id, y: Id, x: Id)
    requires q != "" && x != "" && y != "" && Key("", x) == Key(q, y)
    ensures var s := Begin(RootAndSignal(q, y, x), OFFLINE);
            && !s.aborted && s.diagnostics == [] && s.graph.queue == [Start(q, y)] && s.graph.agents == []
            && s.graph.attempted == {} && s.graph.accepted == {q} && s.graph.RootIds() == {q}
            && (forall path | path in s.sources :: s.sources[path] == STAT) && |s.graph.roots| == 1
  {
    var w := RootAndSignal(q, y, x);
    var s0 := Check(OFFLINE, START);
    var s1 := AddsRoot(w, Check(OFFLINE, s0), "q", q, y);
    Joins(START.graph, q, "q", y);
    assert START.graph.queue + [Start(q, y)] == [Start(q, y)];
    hide AddRoot, RootJoined;
    AddsLast(w, s0, "q");
    QueuesOne(s1.graph, w.signals[0]);
    KeyOf(w.signals[0]);
    hide AddRoots, EdgeKey, Key;
  }

  lemma RootStarts(w: World, g: Graph, r: Root, child: Id)
    requires r in g.roots && r.summary == Some(Starting([Start(r.id, child)])) && child != ""
    ensures Reachable(w, g, child)
  {
    assert Start(r.id, child) in r.summary.value.edges;
    assert r.id in g.RootIds() && Starts(g, r.id, child);
    ChainStart(w, g, child);
    assert [child][|[child]| - 1] == child;
  }

  lemma ClashParents(p: Id, x: Id, q: Id, y: Id)
    ensures Parents(TwoRoots(p, x, q, y), OFFLINE) <= {p, q} && Parents(RootAndSignal(q, y, x), OFFLINE) <= {"", q}
  {
  }

  // The second root's child gets no key of its own.
  lemma TwoRootsLose(p: Id, q: Id) returns (w: World)
    requires p != "" && Clash(p, q)
    ensures VerdictOf(Result(w, OFFLINE)) == Complete && !Closed(w, Result(w, OFFLINE).graph)
    ensures Parents(w, OFFLINE) <= {p, q}
  {
    var y := q + "y";
    var x := Twin(p, q, y);
    ClashShares(p, q, y);
    w := TwoRoots(p, x, q, y);
    TwoRootsBegin(p, x, q, y);
    ClashParents(p, x, q, y);
    hide Begin, Twin, Clash, Result, Parents, Key, Closed, RootFile, Graph.RootIds;
    assert w.direct(Start(p, x)) == ["x"] && w.files["x"] == AgentFile(x, p);
    hide TwoRoots;
    ResultOf(w, Start(p, x), "x", p);
    RootStarts(w, Result(w, OFFLINE).graph, OneChild(q, "q", y), y);
    NotClosed(w, Result(w, OFFLINE).graph, x, y);
  }

  // The signal's child gets no key of its own.
  lemma SignalLoses(q: Id) returns (w: World)
    requires Clash("", q)
    ensures VerdictOf(Result(w, OFFLINE)) == Complete && !Closed(w, Result(w, OFFLINE).graph)
    ensures Parents(w, OFFLINE) <= {"", q}
  {
    var y := q + "y";
    var x := Twin("", q, y);
    ClashShares("", q, y);
    w := RootAndSignal(q, y, x);
    SignalBegin(q, y, x);
    ClashParents("", x, q, y);
    assert w.direct(Start(q, y)) == ["y"] && w.files["y"] == AgentFile(y, q);
    hide Begin, Twin, Clash, Result, Parents, Key, Closed;
    ResultOf(w, Start(q, y), "y", q);
    SignalReaches(w, Result(w, OFFLINE).graph, x);
    NotClosed(w, Result(w, OFFLINE).graph, y, x);
  }

  lemma SignalReaches(w: World, g: Graph, x: Id)
    requires w.signals == [Edge("", x, Started, true, "")] && x != ""
    ensures Reachable(w, g, x)
  {
    assert w.signals[0] in w.signals;
    ChainStart(w, g, x);
    assert [x][|[x]| - 1] == x;
  }

  lemma NotClosed(w: World, g: Graph, x: Id, y: Id)
    requires Reachable(w, g, y) && AgentIds(g.agents) == {x} && x != y && y !in g.RootIds()
    ensures !Closed(w, g)
  {
    hide Reachable;
  }

  /**
   Exactly the pairs of parents that can share a key make the closure fail in silence: some world whose edges have
   no other parents is not degraded and still misses a reachable child.
   */
  lemma ClashExactly(p: Id, q: Id)
    ensures (exists w, c ::
               Parents(w, c) <= {p, q} && VerdictOf(Result(w, c)) != Degraded && !Closed(w, Result(w, c).graph))
            <==> Clash(p, q) || Clash(q, p)
  {
    hide Parents, Result, Closed;
    if w, c :| Parents(w, c) <= {p, q} && VerdictOf(Result(w, c)) != Degraded && !Closed(w, Result(w, c).graph) {
      if !Clash(p, q) && !Clash(q, p) {
        NotSelf(p);
        NotSelf(q);
        ExactClosure(w, c);
      }
    }
    if Clash(p, q) {
      var w := Loser(p, q);
    }
    if Clash(q, p) {
      var w := Loser(q, p);
    }
  }

  lemma Loser(p: Id, q: Id) returns (w: World)
    requires Clash(p, q)
    ensures VerdictOf(Result(w, OFFLINE)) == Complete && !Closed(w, Result(w, OFFLINE).graph)
    ensures Parents(w, OFFLINE) <= {p, q}
  {
    hide Parents, Result, Closed, Clash;
    if p == "" {
      w := SignalLoses(q);
    } else {
      w := TwoRootsLose(p, q);
    }
  }

  lemma NotSelf(p: Id)
    ensures !Clash(p, p)
  {
    assert |p + EDGE_MARK| == |p| + 9;
  }
}
