/**
 The Codex subagent graph (hooks/codex-subagent-graph.mjs): from root rollouts and signals, a worklist
 over untrusted edges decides which child rollouts belong to the session. What the file system answers
 during one scan is the World; the state below is what the scan keeps in sets, maps and counters.
 */
module GraphModel {
  import opened Common
  import opened Transcript

  type Path = string

  datatype Stat = Stat(size: nat, mtime: nat)

  datatype Meta = Meta(id: Id, isSubagent: bool, parentId: Id, sessionId: Id, declaredDepth: nat)

  // A readable file; `meta` and `content` are absent where reading or parsing them fails.
  datatype File = File(stat: Stat, meta: Option<Meta>, content: Option<Summary>, chunks: nat, digest: Option<int>)

  datatype World = World(
    files: map<Path, File>,
    roots: seq<Path>,
    signals: seq<Edge>,
    direct: Edge -> seq<Path>,
    fallbackSpan: Edge -> nat,
    dayFiles: nat -> seq<Path>,
    arranged: seq<Path> -> seq<Path>,
    laterStat: Path -> Option<Stat>)

  datatype CacheKey = CacheKey(id: Id, stat: Stat)

  // A cache entry that fails validation is None. `late(n)` says whether the n-th check of the clock
  // is past the deadline.
  datatype Config = Config(
    live: bool, late: nat -> bool, canonicalId: Id,
    cache: map<CacheKey, Option<Summary>>, cacheMalformed: bool,
    maxNodes: nat, maxDays: nat, maxCandidates: nat, maxBytes: nat)

  datatype Code =
    | ParentMetaInvalid | ChildMissing | ChildMetaInvalid | RootMismatch | LegacyChainUnproven
    | DuplicateRolloutId | GraphLimitExceeded | FallbackLimitExceeded | LiveByteBudgetExceeded
    | LiveDeadlineExceeded | SourceChanged | CacheInvalid

  datatype Agent = Agent(id: Id, parentId: Id, depth: nat, path: Path, summary: Summary)

  datatype Root = Root(id: Id, path: Path, summary: Option<Summary>)

  datatype Stats = Stats(parsed: nat, hits: nat, days: nat, candidates: nat, uncachedBytes: nat)

  // The worklist and what it has decided so far.
  datatype Graph = Graph(
    queue: seq<Edge>, queued: set<string>, attempted: set<Id>,
    roots: seq<Root>, accepted: set<Id>, depths: map<Id, nat>, agents: seq<Agent>)
  {
    function RootIds(): set<Id> {
      set root | root in roots :: root.id
    }
  }

  datatype Scan = Scan(
    aborted: bool, checks: nat, diagnostics: seq<Code>, stats: Stats,
    outputCache: map<CacheKey, Summary>, sources: map<Path, Stat>, graph: Graph)
  {
    function Diagnose(code: Code): Scan {
      this.(diagnostics := diagnostics + [code])
    }

    function Abort(code: Code): Scan {
      Diagnose(code).(aborted := true)
    }
  }

  const EDGE_MARK := "\0started\0"

  // Two edges can share a key without sharing a child: ids are untrusted and may hold the mark.
  function EdgeKey(e: Edge): string {
    e.parent + EDGE_MARK + e.child
  }

  // ---------- the clock ----------

  function Check(c: Config, s: Scan): Scan {
    if s.aborted then s
    else
      var s' := s.(checks := s.checks + 1);
      if c.live && c.late(s.checks) then s'.Abort(LiveDeadlineExceeded) else s'
  }

  // Reading a file of n chunks checks the clock before every read, the last one included.
  function ReadChunks(c: Config, s: Scan, n: nat): Scan
    decreases n
  {
    var s' := Check(c, s);
    if s'.aborted || n == 0 then s' else ReadChunks(c, s', n - 1)
  }

  // ---------- queue ----------

  function Enqueue(g: Graph, e: Edge): Graph {
    if e.child == "" || e.kind != Started || EdgeKey(e) in g.queued then g
    else g.(queued := g.queued + {EdgeKey(e)}, queue := g.queue + [e])
  }

  function EnqueueAll(g: Graph, edges: seq<Edge>): Graph
    decreases edges
  {
    if edges == [] then g else EnqueueAll(Enqueue(g, edges[0]), edges[1..])
  }

  // ---------- transcripts ----------

  function Hit(c: Config, key: CacheKey): Option<Summary> {
    if key in c.cache then c.cache[key] else None
  }

  function Charge(s: Scan, bytes: nat): Scan {
    s.(stats := s.stats.(uncachedBytes := s.stats.uncachedBytes + bytes))
  }

  function Parsed(s: Scan, key: CacheKey, summary: Summary): Scan {
    s.(stats := s.stats.(parsed := s.stats.parsed + 1), outputCache := s.outputCache[key := summary])
  }

  // Parses a transcript that is charged already; `code` is the diagnostic of a bad one.
  function Parse(c: Config, s: Scan, f: File, key: CacheKey, code: Code): (Scan, Option<Summary>) {
    var s1 := ReadChunks(c, s, f.chunks);
    if s1.aborted then (s1, None)
    else if f.content.None? then (s1.Diagnose(code), None)
    else
      var s2 := Parsed(s1, key, f.content.value);
      (if f.content.value.malformedLines > 0 then s2.Diagnose(code) else s2, f.content)
  }

  // Reads a transcript through the cache.
  function ReadSummary(w: World, c: Config, s: Scan, path: Path, id: Id, code: Code): (Scan, Option<Summary>)
    requires path in w.files
  {
    var f := w.files[path];
    var key := CacheKey(id, f.stat);
    if Hit(c, key).Some? then
      (s.(stats := s.stats.(hits := s.stats.hits + 1), outputCache := s.outputCache[key := Hit(c, key).value]),
       Hit(c, key))
    else
      var s1 := if key in c.cache then s.Diagnose(CacheInvalid) else s;
      if c.live && s1.stats.uncachedBytes + f.stat.size > c.maxBytes then (s1.Abort(LiveByteBudgetExceeded), None)
      else Parse(c, Charge(s1, f.stat.size), f, key, code)
  }

  // ---------- roots ----------

  function WithRoot(g: Graph, root: Root): Graph {
    EnqueueAll(g.(roots := g.roots + [root], accepted := g.accepted + {root.id}, depths := g.depths[root.id := 0]),
               if root.summary.Some? then root.summary.value.edges else [])
  }

  function AddRoot(w: World, c: Config, s: Scan, path: Path): Scan {
    if path !in w.files || w.files[path].meta.None? || w.files[path].meta.value.id == "" then
      s.Diagnose(ParentMetaInvalid)
    else
      var meta := w.files[path].meta.value;
      var s1 := s.(sources := s.sources[path := w.files[path].stat]);
      if meta.isSubagent then s1.Diagnose(ParentMetaInvalid)
      else if meta.id in s1.graph.RootIds() then s1.Diagnose(DuplicateRolloutId)
      else if |s1.graph.roots| >= c.maxNodes then s1.Abort(GraphLimitExceeded)
      else
        var (s2, summary) := ReadSummary(w, c, s1, path, meta.id, ParentMetaInvalid);
        s2.(graph := WithRoot(s2.graph, Root(meta.id, path, summary)))
  }

  // Every root is preceded by a check of the clock; an aborted scan reads no more roots.
  function AddRoots(w: World, c: Config, s: Scan, paths: seq<Path>): Scan
    decreases paths
  {
    if paths == [] || s.aborted then s
    else
      var s1 := Check(c, s);
      if s1.aborted then s1 else AddRoots(w, c, AddRoot(w, c, s1, paths[0]), paths[1..])
  }

  // ---------- locating a child ----------

  function IsFile(w: World, path: Path, id: Id): bool {
    path in w.files && w.files[path].meta.Some? && w.files[path].meta.value.id == id
  }

  // One day of the fallback walk. The flag says that the candidate limit ended the whole walk.
  function WalkDay(w: World, c: Config, s: Scan, id: Id, paths: seq<Path>, found: seq<Path>): (Scan, seq<Path>, bool)
    decreases paths
  {
    if paths == [] then (s, found, false)
    else if paths[0] in w.roots then WalkDay(w, c, s, id, paths[1..], found)
    else if s.stats.candidates >= c.maxCandidates then (s.Diagnose(FallbackLimitExceeded), found, true)
    else
      var s1 := s.(stats := s.stats.(candidates := s.stats.candidates + 1));
      WalkDay(w, c, s1, id, paths[1..], if IsFile(w, paths[0], id) then found + [paths[0]] else found)
  }

  function WalkDays(w: World, c: Config, s: Scan, id: Id, day: nat, days: nat, found: seq<Path>): (Scan, seq<Path>)
    decreases days - day
  {
    if day >= days then (s, w.arranged(found))
    else
      var s1 := Check(c, s);
      if s1.aborted then (s1, w.arranged(found))
      else
        var s2 := s1.(stats := s1.stats.(days := s1.stats.days + 1));
        var (s3, more, full) := WalkDay(w, c, s2, id, w.dayFiles(day), found);
        if full then (s3, more) else WalkDays(w, c, s3, id, day + 1, days, more)
  }

  function Locate(w: World, c: Config, s: Scan, e: Edge): (Scan, seq<Path>) {
    if w.direct(e) != [] then (s, w.direct(e))
    else
      var span := w.fallbackSpan(e);
      var s1 := if span > c.maxDays then s.Diagnose(FallbackLimitExceeded) else s;
      WalkDays(w, c, s1, e.child, 0, if span > c.maxDays then c.maxDays else span, [])
  }

  // Keeps the candidates that are files of this id; every other one is diagnosed.
  function Validate(w: World, s: Scan, id: Id, paths: seq<Path>, valid: seq<Path>): (Scan, seq<Path>)
    decreases paths
  {
    if paths == [] then (s, valid)
    else if !IsFile(w, paths[0], id) then Validate(w, s.Diagnose(ChildMetaInvalid), id, paths[1..], valid)
    else Validate(w, s.(sources := s.sources[paths[0] := w.files[paths[0]].stat]), id, paths[1..], valid + [paths[0]])
  }

  // The digests of several candidates; one that cannot be read, or is read too late, gives none.
  function Digests(w: World, c: Config, s: Scan, paths: seq<Path>, seen: set<int>): (Scan, set<int>)
    decreases paths
  {
    if paths == [] then (s, seen)
    else if paths[0] !in w.files then Digests(w, c, s, paths[1..], seen)
    else
      var f := w.files[paths[0]];
      var s1 := ReadChunks(c, s, f.chunks);
      Digests(w, c, s1, paths[1..], if s1.aborted || f.digest.None? then seen else seen + {f.digest.value})
  }

  // ---------- one child ----------

  function EffectiveParent(g: Graph, e: Edge, meta: Meta): Id {
    if e.parent != "" then e.parent
    else if e.fromSignal && meta.parentId in g.accepted then meta.parentId
    else ""
  }

  // The reasons not to admit a located child, in the order they are tried.
  function Objection(c: Config, g: Graph, e: Edge, meta: Meta): Option<Code> {
    if !meta.isSubagent then Some(ChildMetaInvalid)
    else if meta.sessionId != "" && meta.sessionId != c.canonicalId && meta.sessionId !in g.RootIds() then
      Some(RootMismatch)
    else if EffectiveParent(g, e, meta) !in g.accepted || meta.parentId != EffectiveParent(g, e, meta) then
      Some(if meta.sessionId != "" then RootMismatch else LegacyChainUnproven)
    else if meta.sessionId == "" && (meta.parentId == "" || meta.parentId !in g.accepted) then
      Some(LegacyChainUnproven)
    else None
  }

  function DepthOf(g: Graph, meta: Meta): nat {
    if meta.declaredDepth != 0 then meta.declaredDepth
    else (if meta.parentId in g.depths then g.depths[meta.parentId] else 0) + 1
  }

  function WithAgent(g: Graph, agent: Agent): Graph {
    EnqueueAll(g.(agents := g.agents + [agent], accepted := g.accepted + {agent.id},
                  depths := g.depths[agent.id := agent.depth]),
               agent.summary.edges)
  }

  function Admit(w: World, c: Config, s: Scan, e: Edge, path: Path): Scan
    requires IsFile(w, path, e.child)
  {
    var meta := w.files[path].meta.value;
    var objection := Objection(c, s.graph, e, meta);
    if objection.Some? then s.Diagnose(objection.value)
    else if |s.graph.roots| + |s.graph.agents| >= c.maxNodes then s.Abort(GraphLimitExceeded)
    else
      var (s1, summary) := ReadSummary(w, c, s, path, e.child, ChildMetaInvalid);
      if summary.None? then s1
      else s1.(graph := WithAgent(s1.graph,
        Agent(e.child, meta.parentId, DepthOf(s1.graph, meta), path, summary.value)))
  }

  lemma ValidateKeepsFiles(w: World, s: Scan, id: Id, paths: seq<Path>, valid: seq<Path>)
    requires forall p | p in valid :: IsFile(w, p, id)
    ensures forall p | p in Validate(w, s, id, paths, valid).1 :: IsFile(w, p, id)
    decreases paths
  {
  }

  // The candidates agree when there is one, or when all digests that could be taken are equal.
  function Choose(w: World, c: Config, s: Scan, e: Edge, valid: seq<Path>): Scan
    requires valid != [] && forall p | p in valid :: IsFile(w, p, e.child)
  {
    if |valid| == 1 then Admit(w, c, s, e, valid[0])
    else
      var (s1, seen) := Digests(w, c, s, valid, {});
      if |seen| != 1 then (if s1.aborted then s1 else s1.Diagnose(DuplicateRolloutId))
      else Admit(w, c, s1, e, valid[0])
  }

  function TryChild(w: World, c: Config, s: Scan, e: Edge): Scan {
    var (s1, paths) := Locate(w, c, s.(graph := s.graph.(attempted := s.graph.attempted + {e.child})), e);
    if paths == [] then s1.Diagnose(ChildMissing)
    else
      ValidateKeepsFiles(w, s1, e.child, paths, []);
      var (s2, valid) := Validate(w, s1, e.child, paths, []);
      if valid == [] then s2 else Choose(w, c, s2, e, valid)
  }

  // One turn of the main loop, after its check of the clock.
  function Turn(w: World, c: Config, s: Scan): Scan
    requires s.graph.queue != []
  {
    var e := s.graph.queue[0];
    var s1 := s.(graph := s.graph.(queue := s.graph.queue[1..]));
    if e.child in s1.graph.RootIds() || e.child in s1.graph.accepted || e.child in s1.graph.attempted then s1
    else TryChild(w, c, s1, e)
  }

  // ---------- the whole scan ----------

  const START := Scan(false, 0, [], Stats(0, 0, 0, 0, 0), map[], map[],
                       Graph([], {}, {}, [], {}, map[], []))

  // Roots, then signals.
  function Begin(w: World, c: Config): Scan {
    var s0 := if c.cacheMalformed then START.Diagnose(CacheInvalid) else START;
    var s1 := if w.roots == [] then s0.Diagnose(ParentMetaInvalid) else s0;
    var s2 := AddRoots(w, c, Check(c, s1), w.roots);
    s2.(graph := EnqueueAll(s2.graph, w.signals))
  }

  function ChangedSources(w: World, s: Scan): set<Path> {
    set p | p in s.sources && w.laterStat(p) != Some(s.sources[p])
  }

  function Repeat(code: Code, n: nat): (r: seq<Code>)
    ensures |r| == n
  {
    if n == 0 then [] else Repeat(code, n - 1) + [code]
  }

  // The final look at every file that was used.
  function Recheck(w: World, c: Config, s: Scan): Scan {
    if s.aborted || s.sources == map[] then s
    else
      var s1 := Check(c, s);
      if s1.aborted then s1
      else s1.(diagnostics := s1.diagnostics + Repeat(SourceChanged, |ChangedSources(w, s1)|))
  }

  datatype Verdict = Degraded | Complete | Nothing

  function VerdictOf(s: Scan): Verdict {
    if s.diagnostics != [] then Degraded else if s.graph.agents != [] then Complete else Nothing
  }
}
