/** What stands behind every agent of every scan, degraded or not: its session, its edge, its unchanged file. */
module GraphEvidence {
  import opened Common
  import opened Transcript
  import opened GraphModel
  import opened GraphSteps
  import opened GraphInvariant
  import opened GraphLoop
  import opened GraphClosure
  import opened GraphTheorems
  import opened GraphReads
  import opened GraphAdmission

  // ---------- one root, one turn ----------

  predicate IsRootFile(w: World, path: Path) {
    && path in w.files && w.files[path].meta.Some?
    && w.files[path].meta.value.id != "" && !w.files[path].meta.value.isSubagent
  }

  /**
   A path becomes a root exactly when its metadata are those of a top-level rollout, its id is new and there is room;
   it is one even if its transcript cannot be read. Every other path leaves its own diagnostic.
   */
  lemma AddRootExactly(w: World, c: Config, s: Scan, path: Path)
    ensures var t := AddRoot(w, c, s, path);
            if !IsRootFile(w, path) then
              && t == s.Diagnose(ParentMetaInvalid).(sources := t.sources)
              && (t.sources == s.sources || (path in w.files && t.sources == s.sources[path := w.files[path].stat]))
            else
              var id := w.files[path].meta.value.id;
              && t.sources == s.sources[path := w.files[path].stat]
              && if exists r :: r in s.graph.roots && r.id == id then
                   t == s.Diagnose(DuplicateRolloutId).(sources := t.sources)
                 else if |s.graph.roots| >= c.maxNodes then t == s.Abort(GraphLimitExceeded).(sources := t.sources)
                 else
                   var (read, summary) := ReadSummary(w, c, s.(sources := t.sources), path, id, ParentMetaInvalid);
                   && (summary.Some? <==> CanRead(w, c, s, path, id))
                   && t == read.(graph := t.graph)
                   && t.graph.roots == s.graph.roots + [Root(id, path, summary)]
                   && t.graph.accepted == s.graph.accepted + {id} && t.graph.depths == s.graph.depths[id := 0]
                   && t.graph.agents == s.graph.agents
  {
    if IsRootFile(w, path) {
      var id := w.files[path].meta.value.id;
      var s1 := s.(sources := s.sources[path := w.files[path].stat]);
      ReadExactly(w, c, s1, path, id, ParentMetaInvalid);
      assert id in s.graph.RootIds() <==> exists r :: r in s.graph.roots && r.id == id;
      var (s2, summary) := ReadSummary(w, c, s1, path, id, ParentMetaInvalid);
      var root := Root(id, path, summary);
      var added := EnqueueAllGrows(RootJoined(s2.graph, root), RootEdges(root));
      hide EnqueueAll, ReadSummary, Trouble, InTime;
    } else {
      hide ReadSummary;
    }
  }

  // The child of the next edge is new to the scan.
  predicate IsNew(g: Graph, child: Id) {
    child !in g.RootIds() && child !in g.accepted && child !in g.attempted
  }

  // The turn's search for the child of `e` ends in `u` with this file; several candidates agree, unless time is up.
  ghost predicate Settles(w: World, c: Config, s: Scan, e: Edge, path: Path, u: Scan) {
    var (s1, paths) := Locate(w, c, s, e);
    var (s2, valid) := Validate(w, s1, e.child, paths, []);
    && valid != [] && path == valid[0]
    && if |valid| == 1 then u == s2
       else u == Digests(w, c, s2, valid, {}).0 && |Digests(w, c, s2, valid, {}).1| == 1
  }

  // The file belongs there, finds room and can be read when the search has ended in `u`.
  ghost predicate Joins(w: World, c: Config, u: Scan, g: Graph, e: Edge, path: Path) {
    && IsFile(w, path, e.child) && u.graph == g
    && Belongs(c, g, e, w.files[path].meta.value) && HasRoom(c, g) && CanRead(w, c, u, path, e.child)
  }

  // The agents that come out of an admission: those before it, and the new one if it joins.
  ghost predicate Grew(before: seq<Agent>, after: seq<Agent>, id: Id, files: map<Path, File>, joined: bool) {
    if joined then exists a :: after == before + [a] && a.id == id && a.path in files else after == before
  }

  lemma AdmitGrows(w: World, c: Config, u: Scan, e: Edge, path: Path)
    requires IsFile(w, path, e.child) && "" !in u.graph.accepted
    ensures Grew(u.graph.agents, Admit(w, c, u, e, path).graph.agents, e.child, w.files,
                 Joins(w, c, u, u.graph, e, path))
  {
    AdmitExactly(w, c, u, e, path);
    hide Admit, Belongs, CanRead, ReadSummary;
  }

  // The search with its three parts in hand.
  lemma TryChildIs(w: World, c: Config, s: Scan, e: Edge)
    ensures var s0 := s.(graph := s.graph.(attempted := s.graph.attempted + {e.child}));
            var (s1, paths) := Locate(w, c, s0, e);
            var (s2, valid) := Validate(w, s1, e.child, paths, []);
            && s2.graph == s0.graph && (forall p | p in valid :: IsFile(w, p, e.child))
            && (valid == [] ==> TryChild(w, c, s, e).graph == s0.graph && TryChild(w, c, s, e).sources == s2.sources)
            && (valid != [] ==> TryChild(w, c, s, e) == Choose(w, c, s2, e, valid))
  {
    var s0 := s.(graph := s.graph.(attempted := s.graph.attempted + {e.child}));
    var all := LocateExactly(w, c, s0, e);
    var (s1, paths) := Locate(w, c, s0, e);
    ValidateExactly(w, s1, e.child, paths, []);
    ValidateKeepsFiles(w, s1, e.child, paths, []);
    hide Locate, Choose, IsFile, OnDays, Foreign;
    assert paths == [] ==> Validate(w, s1, e.child, paths, []) == (s1, []);
    hide Validate;
  }

  lemma ChooseGrows(w: World, c: Config, s: Scan, e: Edge, valid: seq<Path>)
    requires valid != [] && (forall p | p in valid :: IsFile(w, p, e.child)) && "" !in s.graph.accepted
    ensures var (s3, seen) := Digests(w, c, s, valid, {});
            var u := if |valid| == 1 then s else s3;
            u.graph == s.graph
            && Grew(s.graph.agents, Choose(w, c, s, e, valid).graph.agents, e.child, w.files,
                    (|valid| == 1 || |seen| == 1) && Joins(w, c, u, s.graph, e, valid[0]))
  {
    DigestsExactly(w, c, s, valid, {});
    var s3 := Digests(w, c, s, valid, {}).0;
    AdmitGrows(w, c, if |valid| == 1 then s else s3, e, valid[0]);
    hide Digests, Admit, Joins, IsFile, DigestsOf;
  }

  lemma TryChildExactly(w: World, c: Config, s: Scan, e: Edge)
    requires "" !in s.graph.accepted
    ensures var g := s.graph.(attempted := s.graph.attempted + {e.child});
            Grew(s.graph.agents, TryChild(w, c, s, e).graph.agents, e.child, w.files,
                 exists path, u :: Settles(w, c, s.(graph := g), e, path, u) && Joins(w, c, u, g, e, path))
  {
    var g := s.graph.(attempted := s.graph.attempted + {e.child});
    var s0 := s.(graph := g);
    TryChildIs(w, c, s, e);
    var (s1, paths) := Locate(w, c, s0, e);
    var (s2, valid) := Validate(w, s1, e.child, paths, []);
    hide Locate, Validate, Choose, Joins, Digests, IsFile, TryChild, Grew;
    if valid != [] {
      ChooseGrows(w, c, s2, e, valid);
      var (s3, seen) := Digests(w, c, s2, valid, {});
      var u := if |valid| == 1 then s2 else s3;
      assert forall path, v ::
          Settles(w, c, s0, e, path, v) <==> (|valid| == 1 || |seen| == 1) && path == valid[0] && v == u;
    } else {
      assert forall path, v :: !Settles(w, c, s0, e, path, v);
      assert Grew(s.graph.agents, g.agents, e.child, w.files, false) by { GrewNone(s.graph.agents, e.child, w.files); }
    }
  }

  lemma GrewNone(agents: seq<Agent>, id: Id, files: map<Path, File>)
    ensures Grew(agents, agents, id, files, false)
  {
  }

  /**
   One turn admits exactly one agent, and exactly when the child is new, its search settles on a file, and that file
   belongs to the scan, finds room and can be read.
   */
  lemma TurnExactly(w: World, c: Config, s: Scan)
    requires s.graph.queue != [] && "" !in s.graph.accepted
    ensures var e, g := s.graph.queue[0], Tried(s.graph); var agents := Turn(w, c, s).graph.agents;
            Grew(s.graph.agents, agents, e.child, w.files,
                 && IsNew(s.graph, e.child)
                 && exists path, u :: Settles(w, c, s.(graph := g), e, path, u) && Joins(w, c, u, g, e, path))
  {
    var e, g := s.graph.queue[0], Tried(s.graph);
    if IsNew(s.graph, e.child) {
      var s0 := s.(graph := g);
      assert Popped(s.graph).RootIds() == s.graph.RootIds();
      assert Turn(w, c, s) == TryChild(w, c, s.(graph := Popped(s.graph)), e);
      TryChildExactly(w, c, s.(graph := Popped(s.graph)), e);
    } else {
      assert Popped(s.graph).RootIds() == s.graph.RootIds();
    }
    hide *;
  }

  // ---------- the whole scan ----------

  // A started edge that the scan has met names this child, and its parent or, as a signal, none.
  ghost predicate Warranted(w: World, g: Graph, a: Agent) {
    exists e :: Met(w, g, e) && e.kind == Started && e.child == a.id && Vouches(e, a.parentId)
  }

  // The agent's own file is a subagent of this session; a depth that it declares is kept.
  ghost predicate OwnFile(w: World, c: Config, g: Graph, a: Agent) {
    && IsFile(w, a.path, a.id)
    && var meta := w.files[a.path].meta.value;
       && meta.isSubagent && OwnSession(c, g, meta.sessionId)
       && (meta.declaredDepth != 0 ==> a.depth == meta.declaredDepth)
  }

  // Each used file is remembered with the state in which it was read.
  ghost predicate Remembered(w: World, sources: map<Path, Stat>) {
    forall p | p in sources :: p in w.files && sources[p] == w.files[p].stat
  }

  ghost predicate Evidence(w: World, c: Config, g: Graph, sources: map<Path, Stat>) {
    && (forall e | e in g.queue :: Met(w, g, e) && e.kind == Started)
    && (forall a | a in g.agents :: Warranted(w, g, a) && OwnFile(w, c, g, a) && a.path in sources)
    && (forall r | r in g.roots :: r.path in sources)
    && Remembered(w, sources)
  }

  // Everything met stays met, and so does what was known of the agents.
  lemma EvidenceGrows(w: World, c: Config, g: Graph, h: Graph, before: map<Path, Stat>, after: map<Path, Stat>)
    requires Evidence(w, c, g, before) && before.Keys <= after.Keys && Remembered(w, after)
    requires (forall e | Met(w, g, e) :: Met(w, h, e)) && g.RootIds() <= h.RootIds()
    requires forall e | e in h.queue :: e in g.queue || (Met(w, h, e) && e.kind == Started)
    requires forall a | a in h.agents :: a in g.agents || (Warranted(w, h, a) && OwnFile(w, c, h, a) && a.path in after)
    requires forall r | r in h.roots :: r in g.roots || r.path in after
    ensures Evidence(w, c, h, after)
  {
    hide Met, Remembered, Graph.RootIds, IsFile;
  }

  lemma QueueEvidence(w: World, c: Config, g: Graph, edges: seq<Edge>, sources: map<Path, Stat>)
    requires Evidence(w, c, g, sources) && forall e | e in edges :: Met(w, g, e)
    ensures Evidence(w, c, EnqueueAll(g, edges), sources) && EnqueueAll(g, edges).roots == g.roots
  {
    var added := EnqueueAllGrows(g, edges);
    var h := EnqueueAll(g, edges);
    hide EnqueueAll, Warranted, OwnFile, EdgeKey;
    EvidenceGrows(w, c, g, h, sources, sources);
  }

  lemma RootEvidence(w: World, c: Config, s: Scan, path: Path)
    requires Evidence(w, c, s.graph, s.sources)
    ensures var t := AddRoot(w, c, s, path); Evidence(w, c, t.graph, t.sources)
  {
    AddRootExactly(w, c, s, path);
    var t := AddRoot(w, c, s, path);
    assert Remembered(w, t.sources) && s.sources.Keys <= t.sources.Keys by { hide Warranted, OwnFile; }
    if t.graph == s.graph {
      hide AddRoot, Met, IsFile;
      EvidenceGrows(w, c, s.graph, t.graph, s.sources, t.sources);
    } else {
      var id := w.files[path].meta.value.id;
      var summary := ReadSummary(w, c, s.(sources := t.sources), path, id, ParentMetaInvalid).1;
      var root := Root(id, path, summary);
      ReadExactly(w, c, s.(sources := t.sources), path, id, ParentMetaInvalid);
      hide ReadSummary, Trouble, CanRead, Evidence, Remembered, WithRoot;
      JoinEvidence(w, c, s, t, root);
    }
  }

  lemma JoinEvidence(w: World, c: Config, s: Scan, t: Scan, root: Root)
    requires Evidence(w, c, s.graph, s.sources) && Remembered(w, t.sources) && s.sources.Keys <= t.sources.Keys
    requires root.path in t.sources && t.graph == WithRoot(s.graph, root)
    ensures Evidence(w, c, t.graph, t.sources)
  {
    var j := RootJoined(s.graph, root);
    assert t.graph == EnqueueAll(j, RootEdges(root));
    RootIdsOf(s.graph, root);
    assert forall r | r in j.roots :: r in s.graph.roots || r == root;
    assert forall r | r in s.graph.roots :: r in j.roots;
    assert root in j.roots;
    hide Warranted, OwnFile, EnqueueAll, WithRoot;
    EvidenceGrows(w, c, s.graph, j, s.sources, t.sources);
    QueueEvidence(w, c, j, RootEdges(root), t.sources);
  }

  lemma {:induction false} RootsEvidence(w: World, c: Config, s: Scan, paths: seq<Path>)
    requires Evidence(w, c, s.graph, s.sources)
    ensures var t := AddRoots(w, c, s, paths); Evidence(w, c, t.graph, t.sources)
    decreases paths
  {
    hide Evidence, AddRoot;
    if paths != [] && !s.aborted {
      var s1 := Check(c, s);
      RootEvidence(w, c, s1, paths[0]);
      if !s1.aborted {
        RootsEvidence(w, c, AddRoot(w, c, s1, paths[0]), paths[1..]);
      }
    }
  }

  lemma BeginEvidence(w: World, c: Config)
    ensures var s := Begin(w, c); Evidence(w, c, s.graph, s.sources)
  {
    var s0 := if c.cacheMalformed then START.Diagnose(CacheInvalid) else START;
    var s1 := if w.roots == [] then s0.Diagnose(ParentMetaInvalid) else s0;
    assert Evidence(w, c, START.graph, START.sources);
    hide Evidence, Met;
    RootsEvidence(w, c, Check(c, s1), w.roots);
    var s2 := AddRoots(w, c, Check(c, s1), w.roots);
    hide AddRoots;
    SignalsMet(w, s2.graph);
    QueueEvidence(w, c, s2.graph, w.signals, s2.sources);
  }

  lemma SignalsMet(w: World, g: Graph)
    ensures forall e | e in w.signals :: Met(w, g, e)
  {
  }

  // A turn only adds sources, each as it was read, and the file of the agent that it admits.
  lemma TurnSources(w: World, c: Config, s: Scan)
    requires s.graph.queue != [] && Remembered(w, s.sources)
    ensures var t := Turn(w, c, s);
            && s.sources.Keys <= t.sources.Keys && Remembered(w, t.sources)
            && forall a | a in t.graph.agents && a !in s.graph.agents :: a.path in t.sources
  {
    var e, g := s.graph.queue[0], Tried(s.graph);
    assert Popped(s.graph).RootIds() == s.graph.RootIds();
    if IsNew(s.graph, e.child) {
      var s0 := s.(graph := g);
      var s1' := s.(graph := Popped(s.graph));
      TryChildIs(w, c, s1', e);
      var all := LocateExactly(w, c, s0, e);
      var (s1, paths) := Locate(w, c, s0, e);
      ValidateExactly(w, s1, e.child, paths, []);
      var (s2, valid) := Validate(w, s1, e.child, paths, []);
      assert Turn(w, c, s) == TryChild(w, c, s1', e);
      SourcedKeeps(w, s.sources, s2.sources, FilesOf(w, paths, e.child));
      if valid != [] {
        ChooseSources(w, c, s2, e, valid);
      } else {
        assert Turn(w, c, s).graph == g;
      }
      hide *;
    }
  }

  lemma AdmitSources(w: World, c: Config, s: Scan, e: Edge, path: Path)
    requires IsFile(w, path, e.child)
    ensures var t := Admit(w, c, s, e, path);
            t.sources == s.sources && forall a | a in t.graph.agents && a !in s.graph.agents :: a.path == path
  {
    ReadExactly(w, c, s, path, e.child, ChildMetaInvalid);
    var meta := w.files[path].meta.value;
    var (s1, summary) := ReadSummary(w, c, s, path, e.child, ChildMetaInvalid);
    if summary.Some? {
      var agent := Agent(e.child, meta.parentId, DepthOf(s1.graph, meta), path, summary.value);
      var added := EnqueueAllGrows(Joined(s1.graph, agent), summary.value.edges);
    }
    hide ReadSummary, EnqueueAll, Trouble, CanRead;
  }

  lemma ChooseSources(w: World, c: Config, s: Scan, e: Edge, valid: seq<Path>)
    requires valid != [] && forall p | p in valid :: IsFile(w, p, e.child)
    ensures var t := Choose(w, c, s, e, valid);
            t.sources == s.sources && forall a | a in t.graph.agents && a !in s.graph.agents :: a.path in valid
  {
    DigestsExactly(w, c, s, valid, {});
    var s3 := Digests(w, c, s, valid, {}).0;
    AdmitSources(w, c, if |valid| == 1 then s else s3, e, valid[0]);
    hide Digests, Admit, IsFile, DigestsOf;
  }

  lemma SourcedKeeps(w: World, before: map<Path, Stat>, after: map<Path, Stat>, used: set<Path>)
    requires Sourced(w, before, after, used) && Remembered(w, before)
    ensures before.Keys <= after.Keys && Remembered(w, after) && forall p | p in used :: p in after
  {
  }

  lemma TurnEvidence(w: World, c: Config, s: Scan)
    requires s.graph.queue != [] && Noted(s) && Evidence(w, c, s.graph, s.sources)
    ensures var t := Turn(w, c, s); Evidence(w, c, t.graph, t.sources)
  {
    var agent := TurnDoes(w, c, s);
    TurnSources(w, c, s);
    var t := Turn(w, c, s);
    hide Turn, Remembered;
    if agent.Some? {
      AdmittedEvidence(w, c, s, t, agent.value);
    } else {
      TriedEvidence(w, c, s.graph, t.graph, s.sources, t.sources);
    }
  }

  lemma TriedEvidence(w: World, c: Config, g: Graph, h: Graph, before: map<Path, Stat>, after: map<Path, Stat>)
    requires g.queue != [] && (h == Popped(g) || h == Tried(g)) && Evidence(w, c, g, before)
    requires before.Keys <= after.Keys && Remembered(w, after)
    ensures Evidence(w, c, h, after) && h.RootIds() == g.RootIds() && h.roots == g.roots && h.agents == g.agents
  {
    hide Warranted, OwnFile, Remembered;
    assert forall e | Met(w, g, e) :: Met(w, h, e);
    EvidenceGrows(w, c, g, h, before, after);
  }

  lemma AdmittedEvidence(w: World, c: Config, s: Scan, t: Scan, agent: Agent)
    requires s.graph.queue != [] && Evidence(w, c, s.graph, s.sources) && Admitted(w, c, s, t, agent)
    requires s.sources.Keys <= t.sources.Keys && Remembered(w, t.sources)
    requires forall a | a in t.graph.agents && a !in s.graph.agents :: a.path in t.sources
    ensures Evidence(w, c, t.graph, t.sources)
  {
    var e, g := s.graph.queue[0], Tried(s.graph);
    var h := Joined(g, agent);
    assert Met(w, s.graph, e) && e.kind == Started;
    TriedEvidence(w, c, s.graph, g, s.sources, t.sources);
    var added := EnqueueAllGrows(h, agent.summary.edges);
    assert t.graph == EnqueueAll(h, agent.summary.edges);
    JoinedMet(w, g, agent);
    assert agent in h.agents && agent in t.graph.agents;
    assert agent.path in t.sources by {
      if agent in s.graph.agents {
        assert agent in g.agents;
      }
    }
    assert Warranted(w, h, agent) && OwnFile(w, c, h, agent);
    hide Warranted, OwnFile, Remembered, EnqueueAll, Met, Admissible;
    EvidenceGrows(w, c, g, h, t.sources, t.sources);
    QueueEvidence(w, c, h, agent.summary.edges, t.sources);
  }

  lemma JoinedMet(w: World, g: Graph, agent: Agent)
    ensures var h := Joined(g, agent);
            && (forall e | Met(w, g, e) :: Met(w, h, e)) && (forall e | e in agent.summary.edges :: Met(w, h, e))
            && h.RootIds() == g.RootIds()
  {
    var h := Joined(g, agent);
    assert forall a | a in g.agents :: a in h.agents;
    assert agent in h.agents;
  }

  lemma {:induction false} LoopEvidence(w: World, c: Config, s: Scan)
    requires Noted(s) && s.graph.queued <= Universe(w, c) && Evidence(w, c, s.graph, s.sources)
    ensures var t := Loop(w, c, s); Evidence(w, c, t.graph, t.sources)
    decreases Work(w, c, s.graph)
  {
    hide Evidence, Universe;
    if s.graph.queue != [] && !s.aborted {
      var s1 := Check(c, s);
      if !s1.aborted {
        TurnProgress(w, c, s1);
        TurnEvidence(w, c, s1);
        hide Turn;
        LoopEvidence(w, c, Turn(w, c, s1));
      }
    }
  }

  /**
   In every scan, degraded or not, each agent is the subagent file of its id and of this session, at the depth that
   it declares if it declares one, and a started edge that the scan has met names it, together with its parent or as
   a signal that names none.
   */
  lemma AgentsBelong(w: World, c: Config)
    ensures var g := Result(w, c).graph;
            forall a | a in g.agents :: Warranted(w, g, a) && OwnFile(w, c, g, a)
  {
    ResultEvidence(w, c);
  }

  lemma ResultEvidence(w: World, c: Config)
    ensures var s := Result(w, c); Evidence(w, c, s.graph, s.sources)
  {
    BeginKeeps(w, c);
    BeginEvidence(w, c);
    hide Evidence, Begin, Universe, GraphInv, AllRoots, Queued;
    LoopEvidence(w, c, Begin(w, c));
    hide Loop;
  }

  /** The last look adds one diagnostic for each file that is no longer as it was read, and none if time is up. */
  lemma RecheckExactly(w: World, c: Config, s: Scan)
    requires !s.aborted && s.sources != map[]
    ensures var t := Recheck(w, c, s);
            && (t.aborted <==> !InTime(c, s.checks, s.checks + 1))
            && (!t.aborted ==> (t.diagnostics == s.diagnostics
                                <==> forall p | p in s.sources :: w.laterStat(p) == Some(s.sources[p])))
            && (t.aborted ==> t.diagnostics == s.diagnostics + [LiveDeadlineExceeded])
  {
    var s1 := Check(c, s);
    if !s1.aborted {
      var changed := ChangedSources(w, s1);
      if changed == {} {
        assert Repeat(SourceChanged, 0) == [];
        assert s.diagnostics + [] == s.diagnostics;
        forall p | p in s.sources ensures w.laterStat(p) == Some(s.sources[p]) {
          assert p !in changed;
        }
      } else {
        var p :| p in changed;
        assert |changed| > 0;
        assert |Recheck(w, c, s).diagnostics| > |s.diagnostics|;
      }
    }
  }

  /** Unless the verdict is degraded, every root and agent was at the end the file that was read. */
  lemma UnchangedFiles(w: World, c: Config)
    requires VerdictOf(Result(w, c)) != Degraded
    ensures var g := Result(w, c).graph;
            && (forall a | a in g.agents :: a.path in w.files && w.laterStat(a.path) == Some(w.files[a.path].stat))
            && (forall r | r in g.roots :: r.path in w.files && w.laterStat(r.path) == Some(w.files[r.path].stat))
  {
    BeginKeeps(w, c);
    var s := Loop(w, c, Begin(w, c));
    LoopKeeps(w, c, Begin(w, c));
    ResultEvidence(w, c);
    assert Result(w, c) == Recheck(w, c, s);
    assert Noted(s);
    hide Loop, Begin, Result, ScanInv, Met;
    assert Recheck(w, c, s).sources == s.sources && Recheck(w, c, s).graph == s.graph;
    if s.sources != map[] {
      RecheckExactly(w, c, s);
    }
    hide Recheck;
  }
}
