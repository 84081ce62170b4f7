/** The verdict of a scan: exact closure, forest, limits, cache transparency. */
module GraphTheorems {
  import opened Common
  import opened Transcript
  import opened GraphModel
  import opened GraphSteps
  import opened GraphInvariant
  import opened GraphLoop
  import opened GraphClosure
  import opened GraphKeys

  function Result(w: World, c: Config): Scan {
    BeginKeeps(w, c);
    Recheck(w, c, Loop(w, c, Begin(w, c)))
  }

  // What is known at the end: the invariant, and with no diagnostic that nothing was left undone.
  ghost predicate Finished(w: World, c: Config, s: Scan) {
    && GraphInv(w, c, s.graph) && WithinLimits(c, s)
    && (s.diagnostics == [] ==>
          && s.graph.queue == [] && s.graph.attempted <= s.graph.accepted
          && Queued(w.signals, s.graph.queued) && Matches(s.graph.roots, w.roots))
  }

  lemma ResultFinished(w: World, c: Config)
    ensures Finished(w, c, Result(w, c))
  {
    hide Universe, GraphInv, Matches, Turn, Queued;
    var s := Begin(w, c);
    BeginKeeps(w, c);
    LoopKeeps(w, c, s);
    hide Begin, Loop;
    QueuedGrows(w.signals, s.graph.queued, Loop(w, c, s).graph.queued);
  }

  lemma QueuedGrows(edges: seq<Edge>, a: set<string>, b: set<string>)
    requires Queued(edges, a) && a <= b
    ensures Queued(edges, b)
  {
  }

  // ---------- reachability along started edges ----------

  // An accepted transcript of this id starts the child.
  ghost predicate Starts(g: Graph, id: Id, child: Id) {
    || (exists r :: r in g.roots && r.id == id && r.summary.Some? && StartsChild(r.summary.value.edges, child))
    || (exists a :: a in g.agents && a.id == id && StartsChild(a.summary.edges, child))
  }

  // A signal or a root starts the first id, and each id the next one.
  ghost predicate Chain(w: World, g: Graph, ids: seq<Id>) {
    && ids != [] && "" !in ids
    && (StartsChild(w.signals, ids[0]) || exists r :: r in g.RootIds() && Starts(g, r, ids[0]))
    && forall i | 0 <= i < |ids| - 1 :: Starts(g, ids[i], ids[i + 1])
  }

  ghost predicate Reachable(w: World, g: Graph, id: Id) {
    exists ids :: Chain(w, g, ids) && ids[|ids| - 1] == id
  }

  // Nothing waits, and every tried child was accepted.
  ghost predicate Drained(w: World, g: Graph) {
    Handled(w, g) && KeysDecide(w, g) && g.queue == [] && g.attempted <= g.accepted
  }

  lemma StartedIsAccepted(w: World, g: Graph, edges: seq<Edge>, child: Id)
    requires Drained(w, g) && forall e | e in edges :: Met(w, g, e)
    requires Queued(edges, g.queued) && StartsChild(edges, child) && child != "" && "" !in g.accepted
    ensures child in g.accepted
  {
    var e :| e in edges && e.kind == Started && e.child == child;
    assert EdgeKey(e) in g.queued;
    var f :| Met(w, g, f) && f.kind == Started && EdgeKey(f) == EdgeKey(e) && Settled(g, f);
    hide EdgeKey, Met;
    assert f.child in g.accepted;
    if f.child != "" {
      assert IsStart(e) && IsStart(f);
    }
  }

  lemma StartsAccepted(w: World, g: Graph, id: Id, child: Id)
    requires Drained(w, g) && Starts(g, id, child) && child != "" && "" !in g.accepted
    ensures child in g.accepted
  {
    if r :| r in g.roots && r.id == id && r.summary.Some? && StartsChild(r.summary.value.edges, child) {
      StartedIsAccepted(w, g, r.summary.value.edges, child);
    } else {
      var a :| a in g.agents && a.id == id && StartsChild(a.summary.edges, child);
      StartedIsAccepted(w, g, a.summary.edges, child);
    }
  }

  /** Where keys decide, a chain never leaves the accepted ids. */
  lemma ChainAccepted(w: World, g: Graph, ids: seq<Id>)
    requires Drained(w, g) && Queued(w.signals, g.queued) && "" !in g.accepted && Chain(w, g, ids)
    ensures ids[|ids| - 1] in g.accepted
  {
    hide Drained, Queued, Starts;
    var n := |ids| - 1;
    if n == 0 {
      if StartsChild(w.signals, ids[0]) {
        StartedIsAccepted(w, g, w.signals, ids[0]);
      } else {
        var r :| r in g.RootIds() && Starts(g, r, ids[0]);
        StartsAccepted(w, g, r, ids[0]);
      }
    } else {
      assert Starts(g, ids[n - 1], ids[n]);
      StartsAccepted(w, g, ids[n - 1], ids[n]);
    }
  }

  /** Every agent is reached by a chain. */
  lemma {:induction false} AgentChain(w: World, c: Config, g: Graph, i: nat) returns (ids: seq<Id>)
    requires Ids(c, g) && Origins(w, g) && i < |g.agents|
    ensures Chain(w, g, ids) && ids[|ids| - 1] == g.agents[i].id
    decreases i
  {
    var id := g.agents[i].id;
    assert id in g.accepted && Sprung(w, g, i, id);
    hide Ids, Origins, Chain;
    if StartsChild(w.signals, id) {
      ids := [id];
      ChainStart(w, g, id);
    } else if r :| r in g.roots && r.summary.Some? && StartsChild(r.summary.value.edges, id) {
      ids := [id];
      assert r.id in g.RootIds() && Starts(g, r.id, id);
      ChainStart(w, g, id);
    } else {
      var j :| 0 <= j < i && StartsChild(g.agents[j].summary.edges, id);
      var before := AgentChain(w, c, g, j);
      assert Starts(g, g.agents[j].id, id);
      ids := before + [id];
      ChainStep(w, g, before, id);
    }
  }

  lemma ChainStart(w: World, g: Graph, id: Id)
    requires id != "" && (StartsChild(w.signals, id) || exists r :: r in g.RootIds() && Starts(g, r, id))
    ensures Chain(w, g, [id])
  {
  }

  lemma ChainStep(w: World, g: Graph, ids: seq<Id>, id: Id)
    requires Chain(w, g, ids) && id != "" && Starts(g, ids[|ids| - 1], id)
    ensures Chain(w, g, ids + [id])
  {
    hide Starts;
  }

  // The agents are exactly the ids reachable from roots and signals, the roots aside.
  ghost predicate Closed(w: World, g: Graph) {
    forall id :: id in AgentIds(g.agents) <==> id !in g.RootIds() && Reachable(w, g, id)
  }

  /**
   Unless the verdict is degraded, and where no two parents can share a key for different children, the agents are
   exactly the non-root ids reachable from roots and signals, every root transcript was read, and the verdict is
   `Nothing` exactly when there is no such id.
   */
  lemma ExactClosure(w: World, c: Config)
    requires VerdictOf(Result(w, c)) != Degraded && Apart(w, c)
    ensures var g := Result(w, c).graph;
            && Matches(g.roots, w.roots) && Closed(w, g)
            && (VerdictOf(Result(w, c)) == Nothing
                <==> forall id :: Reachable(w, g, id) ==> id in g.RootIds())
  {
    ResultFinished(w, c);
    var s := Result(w, c);
    hide Result, Reachable, Matches;
    ApartDecides(w, c, s.graph);
    hide KeysDecide, Apart;
    forall id
      ensures id in AgentIds(s.graph.agents) <==> id !in s.graph.RootIds() && Reachable(w, s.graph, id)
    {
      ClosureAt(w, c, s, id);
    }
    hide GraphInv, Queued;
    assert s.graph.agents == [] <==> AgentIds(s.graph.agents) == {} by {
      assert s.graph.agents != [] ==> s.graph.agents[0].id in AgentIds(s.graph.agents);
    }
  }

  lemma ClosureAt(w: World, c: Config, s: Scan, id: Id)
    requires Finished(w, c, s) && s.diagnostics == [] && KeysDecide(w, s.graph)
    ensures id in AgentIds(s.graph.agents) <==> id !in s.graph.RootIds() && Reachable(w, s.graph, id)
  {
    var g := s.graph;
    assert g.accepted == g.RootIds() + AgentIds(g.agents);
    hide Forest, Chain, Matches, KeysDecide;
    if id in AgentIds(g.agents) {
      var a :| a in g.agents && a.id == id;
      var i :| 0 <= i < |g.agents| && g.agents[i] == a;
      var ids := AgentChain(w, c, g, i);
    } else if id !in g.RootIds() && Reachable(w, g, id) {
      var ids :| Chain(w, g, ids) && ids[|ids| - 1] == id;
      ChainAccepted(w, g, ids);
    }
  }

  // ---------- forest and limits ----------

  ghost predicate IsParent(g: Graph, parent: Id, child: Id) {
    exists a :: a in g.agents && a.id == child && a.parentId == parent
  }

  // A path of parents from a root down to the last id.
  ghost predicate Descent(g: Graph, ids: seq<Id>) {
    && ids != [] && ids[0] in g.RootIds()
    && forall i | 0 <= i < |ids| - 1 :: IsParent(g, ids[i], ids[i + 1])
  }

  ghost predicate HangsBelowRoot(g: Graph, id: Id) {
    exists ids :: Descent(g, ids) && ids[|ids| - 1] == id
  }

  /** Every agent hangs below a root; where no file declares a depth, its depth is its distance. */
  lemma {:induction false} AgentDescent(w: World, c: Config, g: Graph, i: nat) returns (ids: seq<Id>)
    requires Ids(c, g) && Forest(w, c, g) && i < |g.agents|
    ensures Descent(g, ids) && |ids| > 1 && ids[|ids| - 1] == g.agents[i].id
    ensures (forall p | IsMeta(w, p) :: w.files[p].meta.value.declaredDepth == 0) ==> g.agents[i].depth == |ids| - 1
    decreases i
  {
    hide Descent, Ids;
    var a := g.agents[i];
    assert AgentOk(w, c, g, i) && IsMeta(w, a.path) && a in g.agents;
    var before;
    if a.parentId in g.RootIds() {
      before := [a.parentId];
      RootDescent(g, a.parentId);
      var r :| r in g.roots && r.id == a.parentId;
      assert g.depths[r.id] == 0;
    } else {
      var j := AgentIndex(g.agents[..i], a.parentId);
      before := AgentDescent(w, c, g, j);
      assert g.depths[g.agents[j].id] == g.agents[j].depth;
    }
    assert IsParent(g, a.parentId, a.id);
    hide Forest, AgentOk;
    DescentStep(g, before, a.id);
    ids := before + [a.id];
  }

  lemma AgentIndex(agents: seq<Agent>, id: Id) returns (j: nat)
    requires id in AgentIds(agents)
    ensures j < |agents| && agents[j].id == id
  {
    var a :| a in agents && a.id == id;
    j :| 0 <= j < |agents| && agents[j] == a;
  }

  lemma RootDescent(g: Graph, root: Id)
    requires root in g.RootIds()
    ensures Descent(g, [root])
  {
  }

  lemma DescentStep(g: Graph, ids: seq<Id>, id: Id)
    requires Descent(g, ids) && IsParent(g, ids[|ids| - 1], id)
    ensures Descent(g, ids + [id])
  {
    hide IsParent;
  }

  predicate IsMeta(w: World, p: Path) {
    p in w.files && w.files[p].meta.Some?
  }

  /** In every scan, degraded or not: ids accepted once, never as a root; node, byte and candidate limits respected. */
  lemma LimitsHold(w: World, c: Config)
    ensures var s := Result(w, c);
            && |s.graph.roots| + |s.graph.agents| <= c.maxNodes
            && (forall i, j | 0 <= i < j < |s.graph.agents| :: s.graph.agents[i].id != s.graph.agents[j].id)
            && (forall a | a in s.graph.agents :: a.id !in s.graph.RootIds())
            && (c.live ==> s.stats.uncachedBytes <= c.maxBytes) && s.stats.candidates <= c.maxCandidates
            && (forall i | 0 <= i < |s.graph.agents| ::
                  HangsBelowRoot(s.graph, s.graph.agents[i].id))
  {
    ResultFinished(w, c);
    var g := Result(w, c).graph;
    hide Result, Origins, Handled;
    forall i | 0 <= i < |g.agents|
      ensures HangsBelowRoot(g, g.agents[i].id)
    {
      var ids := AgentDescent(w, c, g, i);
    }
  }
}
