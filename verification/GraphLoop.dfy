/** The whole scan: roots and signals, then turns of the worklist until it is empty or aborted. */
module GraphLoop {
  import opened Common
  import opened Transcript
  import opened GraphModel
  import opened GraphSteps
  import opened GraphInvariant

  // ---------- termination ----------

  // Every edge the scan can ever meet.
  function Universe(w: World, c: Config): set<string> {
    (set p, e | p in w.files && w.files[p].content.Some? && e in w.files[p].content.value.edges :: EdgeKey(e))
    + (set k, e | k in c.cache && c.cache[k].Some? && e in c.cache[k].value.edges :: EdgeKey(e))
    + (set e | e in w.signals :: EdgeKey(e))
  }

  lemma ReadWithinUniverse(w: World, c: Config, path: Path, id: Id, summary: Summary)
    requires ReadFrom(w, c, path, id, summary)
    ensures forall e | e in summary.edges :: EdgeKey(e) in Universe(w, c)
  {
    var key := CacheKey(id, w.files[path].stat);
    assert Hit(c, key).Some? ==> c.cache[key].Some? && c.cache[key].value == summary;
  }

  lemma EnqueueBounded(w: World, c: Config, g: Graph, edges: seq<Edge>)
    requires g.queued <= Universe(w, c) && forall e | e in edges :: EdgeKey(e) in Universe(w, c)
    ensures EnqueueAll(g, edges).queued <= Universe(w, c)
    ensures |EnqueueAll(g, edges).queued| - |EnqueueAll(g, edges).queue| == |g.queued| - |g.queue|
  {
    hide Universe;
    var added := EnqueueAllGrows(g, edges);
  }

  // The edges not queued yet and the length of the queue: each turn takes one off the sum.
  ghost function Work(w: World, c: Config, g: Graph): nat
    requires g.queued <= Universe(w, c)
  {
    SubsetSize(g.queued, Universe(w, c));
    |Universe(w, c)| - |g.queued| + |g.queue|
  }

  lemma SubsetSize<T>(a: set<T>, b: set<T>)
    requires a <= b
    ensures |a| <= |b|
  {
    assert b == a + (b - a);
  }

  lemma TurnProgress(w: World, c: Config, s: Scan)
    requires s.graph.queue != [] && Noted(s) && s.graph.queued <= Universe(w, c)
    ensures var t := Turn(w, c, s);
            t.graph.queued <= Universe(w, c) && Work(w, c, t.graph) == Work(w, c, s.graph) - 1 && Noted(t)
  {
    var agent := TurnDoes(w, c, s);
    hide Turn, Universe;
    if agent.Some? {
      ReadWithinUniverse(w, c, agent.value.path, agent.value.id, agent.value.summary);
      EnqueueBounded(w, c, Joined(Tried(s.graph), agent.value), agent.value.summary.edges);
    }
  }

  function Loop(w: World, c: Config, s: Scan): Scan
    requires Noted(s) && s.graph.queued <= Universe(w, c)
    decreases Work(w, c, s.graph)
  {
    if s.graph.queue == [] || s.aborted then s
    else
      var s1 := Check(c, s);
      if s1.aborted then s1
      else
        TurnProgress(w, c, s1);
        Loop(w, c, Turn(w, c, s1))
  }

  lemma TurnKeeps(w: World, c: Config, s: Scan)
    requires s.graph.queue != [] && ScanInv(w, c, s)
    ensures ScanInv(w, c, Turn(w, c, s))
  {
    var agent := TurnDoes(w, c, s);
    var t := Turn(w, c, s);
    hide Turn, Ids, Forest, Origins;
    if agent.Some? {
      AdmittedKeeps(w, c, s, t, agent.value);
      hide Handled, GraphInv;
    } else if Skipped(s, t) {
      RootsAccepted(c, s.graph);
      PoppedKeeps(w, c, s.graph);
    } else {
      TriedKeeps(w, c, s.graph);
    }
  }

  lemma RootsAccepted(c: Config, g: Graph)
    requires Ids(c, g)
    ensures g.RootIds() <= g.accepted
  {
  }

  /** The loop keeps the invariant and stops with an empty queue or aborted. */
  lemma {:induction false} LoopKeeps(w: World, c: Config, s: Scan)
    requires ScanInv(w, c, s) && s.graph.queued <= Universe(w, c)
    ensures var t := Loop(w, c, s);
            ScanInv(w, c, t) && (t.aborted || t.graph.queue == []) && t.graph.roots == s.graph.roots
            && s.graph.queued <= t.graph.queued && |s.diagnostics| <= |t.diagnostics|
    decreases Work(w, c, s.graph)
  {
    if s.graph.queue != [] && !s.aborted {
      var s1 := Check(c, s);
      assert Quiet(c, s, s1);
      hide GraphInv;
      if !s1.aborted {
        TurnProgress(w, c, s1);
        TurnKeeps(w, c, s1);
        TurnGrows(w, c, s1);
        LoopKeeps(w, c, Turn(w, c, s1));
      }
    }
  }

  lemma TurnGrows(w: World, c: Config, s: Scan)
    requires s.graph.queue != [] && ScanInv(w, c, s)
    ensures var t := Turn(w, c, s);
            t.graph.roots == s.graph.roots && s.graph.queued <= t.graph.queued && |s.diagnostics| <= |t.diagnostics|
  {
    var agent := TurnDoes(w, c, s);
    var t := Turn(w, c, s);
    hide Turn, Ids, Forest, Origins, Handled;
    if agent.Some? {
      AdmittedKeeps(w, c, s, t, agent.value);
    }
  }
}
