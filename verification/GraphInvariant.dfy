/** The invariant of the worklist, turn by turn. */
module GraphInvariant {
  import opened Common
  import opened Transcript
  import opened GraphModel
  import opened GraphSteps

  // ---------- what one turn does ----------

  function Popped(g: Graph): Graph
    requires g.queue != []
  {
    g.(queue := g.queue[1..])
  }

  function Tried(g: Graph): Graph
    requires g.queue != []
  {
    Popped(g).(attempted := g.attempted + {g.queue[0].child})
  }

  // No session at all, or one that this scan is about.
  predicate OwnSession(c: Config, g: Graph, session: Id) {
    session == "" || session == c.canonicalId || session in g.RootIds()
  }

  // The edge names this parent, or it is a signal that names none.
  predicate Vouches(e: Edge, parent: Id) {
    e.parent == parent || (e.parent == "" && e.fromSignal)
  }

  // The agent is the located file of the edge's child, of this session, with a parent that the edge vouches for and
  // that is accepted already.
  ghost predicate Admissible(w: World, c: Config, g: Graph, e: Edge, agent: Agent) {
    && IsFile(w, agent.path, e.child) && agent.id == e.child
    && var meta := w.files[agent.path].meta.value;
    && meta.isSubagent && agent.parentId == meta.parentId && agent.parentId in g.accepted
    && OwnSession(c, g, meta.sessionId) && Vouches(e, agent.parentId)
    && agent.depth == DepthOf(g, meta)
    && |g.roots| + |g.agents| < c.maxNodes
    && ReadFrom(w, c, agent.path, agent.id, agent.summary)
  }

  ghost predicate Skipped(s: Scan, t: Scan)
    requires s.graph.queue != []
  {
    var e := s.graph.queue[0];
    && t == s.(graph := Popped(s.graph))
    && (e.child in s.graph.RootIds() || e.child in s.graph.accepted || e.child in s.graph.attempted)
  }

  ghost predicate Refused(s: Scan, t: Scan)
    requires s.graph.queue != []
  {
    t.graph == Tried(s.graph) && t.diagnostics != []
  }

  ghost predicate Admitted(w: World, c: Config, s: Scan, t: Scan, agent: Agent)
    requires s.graph.queue != []
  {
    var e := s.graph.queue[0];
    && e.child !in s.graph.RootIds() && e.child !in s.graph.accepted
    && Admissible(w, c, Tried(s.graph), e, agent)
    && t.graph == WithAgent(Tried(s.graph), agent)
  }

  // An aborted scan has a diagnostic.
  ghost predicate Noted(s: Scan) {
    s.aborted ==> s.diagnostics != []
  }

  ghost predicate Louder(c: Config, s: Scan, t: Scan) {
    |s.diagnostics| <= |t.diagnostics| && (s.aborted ==> t.aborted) && (WithinLimits(c, s) ==> WithinLimits(c, t))
  }

  lemma AdmitDoes(w: World, c: Config, s: Scan, e: Edge, path: Path) returns (agent: Option<Agent>)
    requires IsFile(w, path, e.child) && Noted(s)
    ensures var t := Admit(w, c, s, e, path);
            && Louder(c, s, t) && Noted(t)
            && (agent.None? ==> t.graph == s.graph && t.diagnostics != [])
            && (agent.Some? ==> Admissible(w, c, s.graph, e, agent.value)
                                && t.graph == WithAgent(s.graph, agent.value))
  {
    var meta := w.files[path].meta.value;
    agent := None;
    if Objection(c, s.graph, e, meta).None? && |s.graph.roots| + |s.graph.agents| < c.maxNodes {
      ReadSummaryQuiet(w, c, s, path, e.child, ChildMetaInvalid);
      var (s1, summary) := ReadSummary(w, c, s, path, e.child, ChildMetaInvalid);
      if summary.Some? {
        agent := Some(Agent(e.child, meta.parentId, DepthOf(s1.graph, meta), path, summary.value));
      }
      hide ReadSummary, ReadFrom, WithAgent;
    }
  }

  lemma ChooseDoes(w: World, c: Config, s: Scan, e: Edge, valid: seq<Path>) returns (agent: Option<Agent>)
    requires valid != [] && (forall p | p in valid :: IsFile(w, p, e.child)) && Noted(s)
    ensures var t := Choose(w, c, s, e, valid);
            && Louder(c, s, t) && Noted(t)
            && (agent.None? ==> t.graph == s.graph && t.diagnostics != [])
            && (agent.Some? ==> Admissible(w, c, s.graph, e, agent.value)
                                && t.graph == WithAgent(s.graph, agent.value))
  {
    hide WithAgent, Admissible;
    DigestsQuiet(w, c, s, valid, {});
    var (s1, seen) := Digests(w, c, s, valid, {});
    if |valid| == 1 {
      agent := AdmitDoes(w, c, s, e, valid[0]);
    } else if |seen| != 1 {
      agent := None;
    } else {
      agent := AdmitDoes(w, c, s1, e, valid[0]);
    }
    hide Admit, Digests;
  }

  lemma TryChildDoes(w: World, c: Config, s: Scan, e: Edge) returns (agent: Option<Agent>)
    requires Noted(s)
    ensures var t := TryChild(w, c, s, e);
            var g := s.graph.(attempted := s.graph.attempted + {e.child});
            && Louder(c, s, t) && Noted(t)
            && (agent.None? ==> t.graph == g && t.diagnostics != [])
            && (agent.Some? ==> Admissible(w, c, g, e, agent.value) && t.graph == WithAgent(g, agent.value))
  {
    hide WithAgent, Admissible, IsFile;
    var s0 := s.(graph := s.graph.(attempted := s.graph.attempted + {e.child}));
    LocateQuiet(w, c, s0, e);
    var (s1, paths) := Locate(w, c, s0, e);
    ValidateQuiet(w, c, s1, e.child, paths, []);
    var (s2, valid) := Validate(w, s1, e.child, paths, []);
    agent := None;
    if paths != [] {
      ValidateKeepsFiles(w, s1, e.child, paths, []);
      if valid != [] {
        agent := ChooseDoes(w, c, s2, e, valid);
      }
    }
    hide Locate, Validate, Choose;
  }

  /** A turn skips a known child, or refuses it with a diagnostic, or admits it. */
  lemma TurnDoes(w: World, c: Config, s: Scan) returns (agent: Option<Agent>)
    requires s.graph.queue != [] && Noted(s)
    ensures var t := Turn(w, c, s);
            && Louder(c, s, t) && Noted(t)
            && (agent.Some? ==> Admitted(w, c, s, t, agent.value))
            && (agent.None? ==> Skipped(s, t) || Refused(s, t))
  {
    var e := s.graph.queue[0];
    var s1 := s.(graph := Popped(s.graph));
    agent := None;
    if e.child !in s1.graph.RootIds() && e.child !in s1.graph.accepted && e.child !in s1.graph.attempted {
      agent := TryChildDoes(w, c, s1, e);
    }
    hide TryChild, WithAgent, Admissible;
  }

  // ---------- the invariant ----------

  ghost function AgentIds(agents: seq<Agent>): set<Id> {
    set a | a in agents :: a.id
  }

  ghost predicate StartsChild(edges: seq<Edge>, child: Id) {
    exists e :: e in edges && e.kind == Started && e.child == child
  }

  // A signal, a root's transcript or the transcript of one of the first n agents starts this child.
  ghost predicate Sprung(w: World, g: Graph, n: nat, child: Id)
    requires n <= |g.agents|
  {
    || StartsChild(w.signals, child)
    || (exists r :: r in g.roots && r.summary.Some? && StartsChild(r.summary.value.edges, child))
    || (exists j :: 0 <= j < n && StartsChild(g.agents[j].summary.edges, child))
  }

  // Each accepted id is new when it is accepted, and there is room for it.
  ghost predicate Ids(c: Config, g: Graph) {
    && g.accepted == g.RootIds() + AgentIds(g.agents) && "" !in g.accepted
    && (forall i, j | 0 <= i < j < |g.roots| :: g.roots[i].id != g.roots[j].id)
    && (forall i, j | 0 <= i < j < |g.agents| :: g.agents[i].id != g.agents[j].id)
    && (forall i | 0 <= i < |g.agents| :: g.agents[i].id !in g.RootIds())
    && |g.roots| + |g.agents| <= c.maxNodes
  }

  ghost predicate AgentOk(w: World, c: Config, g: Graph, i: nat)
    requires i < |g.agents|
  {
    var a := g.agents[i];
    && IsFile(w, a.path, a.id) && ReadFrom(w, c, a.path, a.id, a.summary)
    && var meta := w.files[a.path].meta.value;
    && meta.isSubagent && a.parentId == meta.parentId
    && (a.parentId in g.RootIds() || a.parentId in AgentIds(g.agents[..i]))
    && a.depth == DepthOf(g, meta)
  }

  ghost predicate RootOk(w: World, c: Config, r: Root) {
    && IsFile(w, r.path, r.id) && !w.files[r.path].meta.value.isSubagent
    && (r.summary.Some? ==> ReadFrom(w, c, r.path, r.id, r.summary.value))
  }

  ghost predicate Forest(w: World, c: Config, g: Graph) {
    && g.depths.Keys == g.accepted
    && (forall r | r in g.roots :: RootOk(w, c, r) && r.id in g.depths && g.depths[r.id] == 0)
    && (forall i | 0 <= i < |g.agents| :: 
          && AgentOk(w, c, g, i) && g.agents[i].id in g.depths && g.depths[g.agents[i].id] == g.agents[i].depth)
  }

  // Every accepted or queued child was started by a signal or a transcript accepted before it.
  ghost predicate Origins(w: World, g: Graph) {
    && (forall i | 0 <= i < |g.agents| :: Sprung(w, g, i, g.agents[i].id))
    && (forall e | e in g.queue :: Sprung(w, g, |g.agents|, e.child))
  }

  // An edge of a signal or of an accepted transcript.
  ghost predicate Met(w: World, g: Graph, e: Edge) {
    || e in w.signals
    || (exists r :: r in g.roots && r.summary.Some? && e in r.summary.value.edges)
    || (exists a :: a in g.agents && e in a.summary.edges)
  }

  ghost predicate Settled(g: Graph, e: Edge) {
    e.child in g.accepted || e.child in g.attempted || e in g.queue
  }

  // Every queued key is that of an edge whose child was tried or waits for it.
  ghost predicate KeysHandled(w: World, g: Graph) {
    forall key | key in g.queued ::
      exists e :: Met(w, g, e) && e.kind == Started && EdgeKey(e) == key && Settled(g, e)
  }

  // No queued key is forgotten, and every started edge of an accepted transcript has its key queued.
  ghost predicate Handled(w: World, g: Graph) {
    && (forall e | e in g.queue :: e.child != "")
    && KeysHandled(w, g)
    && (forall r | r in g.roots && r.summary.Some? :: Queued(r.summary.value.edges, g.queued))
    && (forall a | a in g.agents :: Queued(a.summary.edges, g.queued))
  }

  ghost predicate GraphInv(w: World, c: Config, g: Graph) {
    Ids(c, g) && Forest(w, c, g) && Origins(w, g) && Handled(w, g)
  }

  ghost predicate ScanInv(w: World, c: Config, s: Scan) {
    && GraphInv(w, c, s.graph) && Noted(s) && WithinLimits(c, s)
    && (s.diagnostics == [] ==> s.graph.attempted <= s.graph.accepted)
  }

  // ---------- admitting an agent ----------

  // The graph before its new transcript's edges are queued.
  function Joined(g: Graph, agent: Agent): Graph {
    g.(agents := g.agents + [agent], accepted := g.accepted + {agent.id}, depths := g.depths[agent.id := agent.depth])
  }

  lemma JoinedIds(w: World, c: Config, g: Graph, e: Edge, agent: Agent)
    requires Ids(c, g) && Admissible(w, c, g, e, agent) && agent.id !in g.accepted && agent.id != ""
    ensures Ids(c, Joined(g, agent)) && Joined(g, agent).RootIds() == g.RootIds()
  {
    assert AgentIds(g.agents + [agent]) == AgentIds(g.agents) + {agent.id};
  }

  lemma JoinedForest(w: World, c: Config, g: Graph, e: Edge, agent: Agent)
    requires Ids(c, g) && Forest(w, c, g) && Admissible(w, c, g, e, agent) && agent.id !in g.accepted
    ensures Forest(w, c, Joined(g, agent))
  {
    var h := Joined(g, agent);
    assert h.RootIds() == g.RootIds();
    forall i | 0 <= i < |h.agents|
      ensures AgentOk(w, c, h, i) && h.depths[h.agents[i].id] == h.agents[i].depth
    {
      if i < |g.agents| {
        assert AgentOk(w, c, g, i) && h.agents[i] == g.agents[i];
        assert h.agents[..i] == g.agents[..i];
        assert AgentIds(g.agents[..i]) <= AgentIds(g.agents);
      } else {
        assert h.agents[..i] == g.agents;
      }
    }
  }

  lemma JoinedOrigins(w: World, g: Graph, agent: Agent)
    requires Origins(w, g) && Sprung(w, g, |g.agents|, agent.id)
    ensures Origins(w, Joined(g, agent))
  {
    var h := Joined(g, agent);
    forall n: nat, child | n <= |g.agents| && Sprung(w, g, n, child)
      ensures Sprung(w, h, n, child) && Sprung(w, h, |h.agents|, child)
    {
      if j :| 0 <= j < n && StartsChild(g.agents[j].summary.edges, child) {
        assert h.agents[j] == g.agents[j];
      }
    }
  }

  // A started edge of the list with this key is in the queue.
  ghost predicate InQueue(queue: seq<Edge>, edges: seq<Edge>, key: string) {
    exists e :: e in queue && e in edges && e.kind == Started && EdgeKey(e) == key
  }

  // What queueing the edges does to a graph, as far as the invariant is concerned.
  ghost predicate Requeued(g: Graph, h: Graph, edges: seq<Edge>) {
    && g.queued <= h.queued && Queued(edges, h.queued)
    && h.agents == g.agents && h.roots == g.roots && h.attempted == g.attempted && h.accepted == g.accepted
    && (forall key | key in h.queued && key !in g.queued :: InQueue(h.queue, edges, key))
    && (forall e | e in g.queue :: e in h.queue)
    && (forall e | e in h.queue :: e in g.queue || e.child != "")
    && |h.queued| - |h.queue| == |g.queued| - |g.queue|
  }

  /** Queueing the edges of a transcript that is part of the graph keeps the invariant. */
  lemma QueueingKeeps(w: World, c: Config, g: Graph, edges: seq<Edge>)
    requires Ids(c, g) && Forest(w, c, g) && Origins(w, g)
    requires forall e | e in edges && e.kind == Started :: Sprung(w, g, |g.agents|, e.child)
    ensures var h := EnqueueAll(g, edges);
            && Ids(c, h) && Forest(w, c, h) && Origins(w, h) && h.RootIds() == g.RootIds()
            && Requeued(g, h, edges)
  {
    var added := EnqueueAllGrows(g, edges);
    var h := EnqueueAll(g, edges);
    hide *;
    GrownRequeued(g, h, added, edges);
    RequeuedForest(w, c, g, h, edges);
    GrownOrigins(w, g, h, added, edges);
  }

  lemma GrownRequeued(g: Graph, h: Graph, added: seq<Edge>, edges: seq<Edge>)
    requires Grown(g, h, added) && Queued(edges, h.queued) && forall e | e in added :: e in edges
    ensures Requeued(g, h, edges) && h.depths == g.depths
  {
    hide Queued, EdgeKey;
    forall key | key in h.queued && key !in g.queued ensures InQueue(h.queue, edges, key) {
      var e :| e in added && EdgeKey(e) == key;
      assert e in h.queue;
    }
  }

  lemma RequeuedForest(w: World, c: Config, g: Graph, h: Graph, edges: seq<Edge>)
    requires Ids(c, g) && Forest(w, c, g) && Requeued(g, h, edges) && h.depths == g.depths
    ensures Ids(c, h) && Forest(w, c, h) && h.RootIds() == g.RootIds()
  {
    hide RootOk, AgentIds, IsFile, ReadFrom, Queued;
    assert h.RootIds() == g.RootIds();
    hide Graph.RootIds;
    forall i | 0 <= i < |h.agents| ensures AgentOk(w, c, h, i) {
      assert AgentOk(w, c, g, i);
    }
  }

  lemma GrownOrigins(w: World, g: Graph, h: Graph, added: seq<Edge>, edges: seq<Edge>)
    requires Origins(w, g) && Grown(g, h, added) && forall e | e in added :: e in edges
    requires forall e | e in edges && e.kind == Started :: Sprung(w, g, |g.agents|, e.child)
    ensures Origins(w, h)
  {
    forall n: nat, child | n <= |g.agents| && Sprung(w, g, n, child) ensures Sprung(w, h, n, child) {
    }
    hide Sprung;
    assert forall e | e in h.queue :: e in g.queue || e in added;
  }

  lemma KeysHandledGrow(w: World, g: Graph, h: Graph, edges: seq<Edge>)
    requires KeysHandled(w, g) && g.accepted <= h.accepted && g.attempted <= h.attempted
    requires forall key | key in h.queued && key !in g.queued :: InQueue(h.queue, edges, key)
    requires forall e | e in g.queue :: e in h.queue
    requires (forall e | Met(w, g, e) :: Met(w, h, e)) && forall e | e in edges :: Met(w, h, e)
    ensures KeysHandled(w, h)
  {
    hide Met, EdgeKey;
    forall key | key in h.queued
      ensures exists e :: Met(w, h, e) && e.kind == Started && EdgeKey(e) == key && Settled(h, e)
    {
      if key in g.queued {
        var e :| Met(w, g, e) && e.kind == Started && EdgeKey(e) == key && Settled(g, e);
        assert Met(w, h, e) && Settled(h, e);
      } else {
        assert InQueue(h.queue, edges, key);
        var e :| e in h.queue && e in edges && e.kind == Started && EdgeKey(e) == key;
        assert Met(w, h, e) && Settled(h, e);
      }
    }
  }

  lemma AdmittedHandled(w: World, g: Graph, agent: Agent, h: Graph)
    requires Handled(w, g) && Requeued(Joined(g, agent), h, agent.summary.edges)
    ensures Handled(w, h)
  {
    assert h.agents == g.agents + [agent] && agent in h.agents;
    assert forall a | a in g.agents :: a in h.agents;
    KeysHandledGrow(w, g, h, agent.summary.edges);
    hide KeysHandled, Met, InQueue;
  }

  lemma AdmittedKeeps(w: World, c: Config, s: Scan, t: Scan, agent: Agent)
    requires s.graph.queue != [] && GraphInv(w, c, s.graph) && Admitted(w, c, s, t, agent)
    ensures GraphInv(w, c, t.graph)
    ensures Requeued(Joined(Tried(s.graph), agent), t.graph, agent.summary.edges)
  {
    var g := Tried(s.graph);
    var e := s.graph.queue[0];
    TriedKeeps(w, c, s.graph);
    hide Origins, Forest, Ids, Sprung, Handled, Requeued;
    JoinedIds(w, c, g, e, agent);
    JoinedForest(w, c, g, e, agent);
    JoinedOrigins(w, g, agent);
    var h := Joined(g, agent);
    OwnEdgesSprung(w, h, |h.agents| - 1);
    QueueingKeeps(w, c, h, agent.summary.edges);
    hide Admissible, EnqueueAll;
    assert t.graph == EnqueueAll(h, agent.summary.edges);
    AdmittedHandled(w, g, agent, t.graph);
  }

  lemma OwnEdgesSprung(w: World, g: Graph, j: nat)
    requires j < |g.agents|
    ensures forall e | e in g.agents[j].summary.edges && e.kind == Started :: Sprung(w, g, |g.agents|, e.child)
  {
  }

  // Taking the first edge off the queue, with or without an attempt.
  lemma TriedKeeps(w: World, c: Config, g: Graph)
    requires g.queue != [] && GraphInv(w, c, g)
    ensures GraphInv(w, c, Tried(g))
    ensures Sprung(w, Tried(g), |g.agents|, g.queue[0].child)
  {
  }

  lemma PoppedKeeps(w: World, c: Config, g: Graph)
    requires g.queue != [] && GraphInv(w, c, g)
    requires g.queue[0].child in g.RootIds() + g.accepted + g.attempted
    ensures GraphInv(w, c, Popped(g))
  {
  }
}
