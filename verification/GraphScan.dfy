/** The scan as the source runs it: one object whose sets, maps, counters and flag the steps update in place. */
module GraphScan {
  import opened Common
  import opened Transcript
  import opened GraphModel
  import opened GraphSteps
  import opened GraphInvariant
  import opened GraphLoop
  import opened GraphClosure
  import opened GraphTheorems

  class SubagentScan {
    const w: World
    const c: Config
    var aborted: bool
    var checks: nat
    var diagnostics: seq<Code>
    var stats: Stats
    var outputCache: map<CacheKey, Summary>
    var sourceByPath: map<Path, Stat>
    var queue: seq<Edge>
    var queuedEdges: set<string>
    var attempted: set<Id>
    var rootRecords: seq<Root>
    var acceptedParents: set<Id>
    var depthById: map<Id, nat>
    var agents: seq<Agent>

    function Worklist(): Graph
      reads this
    {
      Graph(queue, queuedEdges, attempted, rootRecords, acceptedParents, depthById, agents)
    }

    function State(): Scan
      reads this
    {
      Scan(aborted, checks, diagnostics, stats, outputCache, sourceByPath, Worklist())
    }

    constructor (world: World, config: Config)
      ensures State() == START && w == world && c == config
    {
      w, c := world, config;
      aborted, checks, diagnostics, stats := false, 0, [], Stats(0, 0, 0, 0, 0);
      outputCache, sourceByPath := map[], map[];
      queue, queuedEdges, attempted, rootRecords := [], {}, {}, [];
      acceptedParents, depthById, agents := {}, map[], [];
    }

    method Diagnose(code: Code)
      modifies this`diagnostics
      ensures State() == old(State()).Diagnose(code)
    {
      diagnostics := diagnostics + [code];
    }

    method Abort(code: Code)
      modifies this`diagnostics, this`aborted
      ensures State() == old(State()).Abort(code)
    {
      diagnostics := diagnostics + [code];
      aborted := true;
    }

    method ShouldContinue() returns (go: bool)
      modifies this`diagnostics, this`aborted, this`checks
      ensures State() == Check(c, old(State())) && go == !aborted
    {
      if aborted {
        return false;
      }
      checks := checks + 1;
      if c.live && c.late(checks - 1) {
        Abort(LiveDeadlineExceeded);
      }
      go := !aborted;
    }

    method EnqueueEdge(e: Edge)
      modifies this`queue, this`queuedEdges
      ensures Worklist() == Enqueue(old(Worklist()), e)
    {
      if e.child == "" || e.kind != Started || EdgeKey(e) in queuedEdges {
        return;
      }
      queuedEdges := queuedEdges + {EdgeKey(e)};
      queue := queue + [e];
    }

    method EnqueueEdges(edges: seq<Edge>)
      modifies this`queue, this`queuedEdges
      ensures Worklist() == EnqueueAll(old(Worklist()), edges)
    {
      var i := 0;
      assert edges[0..] == edges;
      while i < |edges|
        invariant i <= |edges|
        invariant EnqueueAll(Worklist(), edges[i..]) == EnqueueAll(old(Worklist()), edges)
      {
        assert edges[i..][1..] == edges[i + 1..];
        EnqueueEdge(edges[i]);
        i := i + 1;
      }
    }

    /** The clock checks of reading a file of n chunks. */
    method ReadFile(n: nat) returns (read: bool)
      modifies this`diagnostics, this`aborted, this`checks
      ensures State() == ReadChunks(c, old(State()), n) && read == !aborted
    {
      var left: nat := n;
      while true
        invariant left <= n && ReadChunks(c, State(), left) == ReadChunks(c, old(State()), n)
        decreases left
      {
        read := ShouldContinue();
        if !read || left == 0 {
          return;
        }
        left := left - 1;
      }
    }

    method ParseTranscript(f: File, key: CacheKey, code: Code) returns (summary: Option<Summary>)
      modifies this`diagnostics, this`aborted, this`checks, this`stats, this`outputCache
      ensures (State(), summary) == Parse(c, old(State()), f, key, code)
    {
      hide ReadChunks;
      var read := ReadFile(f.chunks);
      if !read {
        return None;
      }
      if f.content.None? {
        Diagnose(code);
        return None;
      }
      stats := stats.(parsed := stats.parsed + 1);
      outputCache := outputCache[key := f.content.value];
      if f.content.value.malformedLines > 0 {
        Diagnose(code);
      }
      summary := f.content;
    }

    method ScanWithCache(path: Path, id: Id, code: Code) returns (summary: Option<Summary>)
      requires path in w.files
      modifies this`diagnostics, this`aborted, this`checks, this`stats, this`outputCache
      ensures (State(), summary) == ReadSummary(w, c, old(State()), path, id, code)
    {
      hide Parse;
      var f := w.files[path];
      var key := CacheKey(id, f.stat);
      if key in c.cache {
        summary := c.cache[key];
        if summary.Some? {
          stats := stats.(hits := stats.hits + 1);
          outputCache := outputCache[key := summary.value];
          return;
        }
        Diagnose(CacheInvalid);
      }
      if c.live && stats.uncachedBytes + f.stat.size > c.maxBytes {
        Abort(LiveByteBudgetExceeded);
        return None;
      }
      stats := stats.(uncachedBytes := stats.uncachedBytes + f.stat.size);
      summary := ParseTranscript(f, key, code);
    }

    method KeepRoot(root: Root)
      modifies this`acceptedParents, this`depthById, this`rootRecords, this`queue, this`queuedEdges
      ensures Worklist() == WithRoot(old(Worklist()), root)
    {
      hide EnqueueAll;
      acceptedParents := acceptedParents + {root.id};
      depthById := depthById[root.id := 0];
      rootRecords := rootRecords + [root];
      EnqueueEdges(if root.summary.Some? then root.summary.value.edges else []);
    }

    method ReadRoot(path: Path)
      modifies this
      ensures State() == AddRoot(w, c, old(State()), path)
    {
      hide ReadSummary, WithRoot;
      if path !in w.files || w.files[path].meta.None? || w.files[path].meta.value.id == "" {
        Diagnose(ParentMetaInvalid);
        return;
      }
      var meta := w.files[path].meta.value;
      sourceByPath := sourceByPath[path := w.files[path].stat];
      if meta.isSubagent {
        Diagnose(ParentMetaInvalid);
      } else if exists r :: r in rootRecords && r.id == meta.id {
        Diagnose(DuplicateRolloutId);
      } else if |rootRecords| >= c.maxNodes {
        Abort(GraphLimitExceeded);
      } else {
        ghost var before := State();
        var summary := ScanWithCache(path, meta.id, ParentMetaInvalid);
        ReadKeepsGraph(w, c, before, path, meta.id, ParentMetaInvalid);
        KeepRoot(Root(meta.id, path, summary));
      }
    }

    method ReadRoots()
      modifies this
      ensures State() == AddRoots(w, c, old(State()), w.roots)
    {
      hide AddRoot;
      var i := 0;
      assert w.roots[0..] == w.roots;
      while i < |w.roots| && !aborted
        invariant i <= |w.roots|
        invariant AddRoots(w, c, State(), w.roots[i..]) == AddRoots(w, c, old(State()), w.roots)
        decreases |w.roots| - i
      {
        assert w.roots[i..][1..] == w.roots[i + 1..];
        var go := ShouldContinue();
        if !go {
          return;
        }
        ReadRoot(w.roots[i]);
        i := i + 1;
      }
    }

    method WalkOneDay(id: Id, paths: seq<Path>, found0: seq<Path>) returns (found: seq<Path>, full: bool)
      modifies this`diagnostics, this`stats
      ensures (State(), found, full) == WalkDay(w, c, old(State()), id, paths, found0)
    {
      hide IsFile;
      var i := 0;
      found := found0;
      assert paths[0..] == paths;
      while i < |paths|
        invariant i <= |paths|
        invariant WalkDay(w, c, State(), id, paths[i..], found) == WalkDay(w, c, old(State()), id, paths, found0)
      {
        assert paths[i..][1..] == paths[i + 1..];
        if paths[i] !in w.roots {
          if stats.candidates >= c.maxCandidates {
            Diagnose(FallbackLimitExceeded);
            return found, true;
          }
          stats := stats.(candidates := stats.candidates + 1);
          if IsFile(w, paths[i], id) {
            found := found + [paths[i]];
          }
        }
        i := i + 1;
      }
      full := false;
    }

    method LocateChild(e: Edge) returns (paths: seq<Path>)
      modifies this`diagnostics, this`aborted, this`checks, this`stats
      ensures (State(), paths) == Locate(w, c, old(State()), e)
    {
      hide WalkDays;
      paths := w.direct(e);
      if paths != [] {
        return;
      }
      var span := w.fallbackSpan(e);
      if span > c.maxDays {
        Diagnose(FallbackLimitExceeded);
      }
      paths := WalkFallback(e.child, if span > c.maxDays then c.maxDays else span);
    }

    method WalkFallback(id: Id, days: nat) returns (paths: seq<Path>)
      modifies this`diagnostics, this`aborted, this`checks, this`stats
      ensures (State(), paths) == WalkDays(w, c, old(State()), id, 0, days, [])
    {
      hide WalkDay;
      paths := [];
      var day := 0;
      while day < days
        invariant day <= days
        invariant WalkDays(w, c, State(), id, day, days, paths) == WalkDays(w, c, old(State()), id, 0, days, [])
      {
        var go := ShouldContinue();
        if !go {
          break;
        }
        stats := stats.(days := stats.days + 1);
        var full;
        paths, full := WalkOneDay(id, w.dayFiles(day), paths);
        if full {
          return;
        }
        day := day + 1;
      }
      paths := w.arranged(paths);
    }

    method ValidateCandidates(id: Id, paths: seq<Path>) returns (valid: seq<Path>)
      modifies this`diagnostics, this`sourceByPath
      ensures (State(), valid) == Validate(w, old(State()), id, paths, [])
    {
      var i := 0;
      valid := [];
      assert paths[0..] == paths;
      while i < |paths|
        invariant i <= |paths|
        invariant Validate(w, State(), id, paths[i..], valid) == Validate(w, old(State()), id, paths, [])
      {
        assert paths[i..][1..] == paths[i + 1..];
        if !IsFile(w, paths[i], id) {
          Diagnose(ChildMetaInvalid);
        } else {
          sourceByPath := sourceByPath[paths[i] := w.files[paths[i]].stat];
          valid := valid + [paths[i]];
        }
        i := i + 1;
      }
    }

    method DigestCandidates(paths: seq<Path>) returns (seen: set<int>)
      modifies this`diagnostics, this`aborted, this`checks
      ensures (State(), seen) == Digests(w, c, old(State()), paths, {})
    {
      hide ReadChunks;
      var i := 0;
      seen := {};
      assert paths[0..] == paths;
      while i < |paths|
        invariant i <= |paths|
        invariant Digests(w, c, State(), paths[i..], seen) == Digests(w, c, old(State()), paths, {})
      {
        assert paths[i..][1..] == paths[i + 1..];
        if paths[i] in w.files {
          var f := w.files[paths[i]];
          var read := ReadFile(f.chunks);
          if read && f.digest.Some? {
            seen := seen + {f.digest.value};
          }
        }
        i := i + 1;
      }
    }

    method AdmitChild(e: Edge, path: Path)
      requires IsFile(w, path, e.child)
      modifies this
      ensures State() == Admit(w, c, old(State()), e, path)
    {
      hide ReadSummary, EnqueueAll, Objection;
      var meta := w.files[path].meta.value;
      var objection := Objection(c, Worklist(), e, meta);
      if objection.Some? {
        Diagnose(objection.value);
        return;
      }
      if |rootRecords| + |agents| >= c.maxNodes {
        Abort(GraphLimitExceeded);
        return;
      }
      ghost var before := State();
      var summary := ScanWithCache(path, e.child, ChildMetaInvalid);
      ReadKeepsGraph(w, c, before, path, e.child, ChildMetaInvalid);
      if summary.None? {
        return;
      }
      var agent := Agent(e.child, meta.parentId, DepthOf(Worklist(), meta), path, summary.value);
      agents := agents + [agent];
      acceptedParents := acceptedParents + {agent.id};
      depthById := depthById[agent.id := agent.depth];
      EnqueueEdges(summary.value.edges);
    }

    method VisitChild(e: Edge)
      modifies this
      ensures State() == TryChild(w, c, old(State()), e)
    {
      hide Locate, Validate, Digests, Admit;
      attempted := attempted + {e.child};
      var paths := LocateChild(e);
      if paths == [] {
        Diagnose(ChildMissing);
        return;
      }
      ValidateKeepsFiles(w, State(), e.child, paths, []);
      var valid := ValidateCandidates(e.child, paths);
      if valid == [] {
        return;
      }
      if |valid| > 1 {
        var seen := DigestCandidates(valid);
        if |seen| != 1 {
          if !aborted {
            Diagnose(DuplicateRolloutId);
          }
          return;
        }
      }
      AdmitChild(e, valid[0]);
    }

    /** The main loop: until the queue is empty or the scan is aborted. */
    method DrainQueue()
      requires Noted(State()) && queuedEdges <= Universe(w, c)
      modifies this
      ensures State() == Loop(w, c, old(State()))
    {
      hide Universe, TryChild;
      while queue != [] && !aborted
        invariant Noted(State()) && queuedEdges <= Universe(w, c)
        invariant Loop(w, c, State()) == Loop(w, c, old(State()))
        decreases Work(w, c, Worklist())
      {
        ghost var before := Check(c, State());
        var go := ShouldContinue();
        if !go {
          return;
        }
        TurnProgress(w, c, before);
        var e := queue[0];
        queue := queue[1..];
        if (forall r | r in rootRecords :: r.id != e.child) && e.child !in acceptedParents && e.child !in attempted {
          VisitChild(e);
        }
        assert State() == Turn(w, c, before);
      }
    }

    method FlagChangedSources()
      modifies this`diagnostics
      ensures diagnostics == old(diagnostics) + Repeat(SourceChanged, |ChangedSources(w, old(State()))|)
    {
      var todo, changed := sourceByPath.Keys, 0;
      ghost var all := ChangedSources(w, State());
      assert all <= todo && forall p | p in sourceByPath :: p in all <==> w.laterStat(p) != Some(sourceByPath[p]);
      hide *;
      assert all - todo == {};
      while todo != {}
        invariant todo <= sourceByPath.Keys
        invariant changed == |all - todo|
        invariant diagnostics == old(diagnostics) + Repeat(SourceChanged, changed)
        decreases todo
      {
        var p :| p in todo;
        CountOne(all, todo, p);
        todo := todo - {p};
        if w.laterStat(p) != Some(sourceByPath[p]) {
          RepeatOne(old(diagnostics), SourceChanged, changed);
          diagnostics := diagnostics + [SourceChanged];
          changed := changed + 1;
        }
      }
      assert all - {} == all;
    }

    method RecheckSources()
      modifies this`diagnostics, this`aborted, this`checks
      ensures State() == Recheck(w, c, old(State()))
    {
      hide ChangedSources;
      if aborted || sourceByPath == map[] {
        return;
      }
      var go := ShouldContinue();
      if go {
        FlagChangedSources();
      }
    }

    /** Composes the graph; the theorems about `Result` are about what this leaves in the object. */
    method Compose() returns (verdict: Verdict)
      requires State() == START
      modifies this
      ensures State() == Result(w, c) && verdict == VerdictOf(State())
    {
      hide AddRoots, EnqueueAll, Loop, Recheck, GraphInv, Universe;
      if c.cacheMalformed {
        Diagnose(CacheInvalid);
      }
      if w.roots == [] {
        Diagnose(ParentMetaInvalid);
      }
      var go := ShouldContinue();
      if go {
        ReadRoots();
      } else {
        assert AddRoots(w, c, State(), w.roots) == State() by { AbortedAddsNoRoots(w, c, State(), w.roots); }
      }
      EnqueueEdges(w.signals);
      BeginKeeps(w, c);
      DrainQueue();
      RecheckSources();
      verdict := if diagnostics != [] then Degraded else if agents != [] then Complete else Nothing;
    }
  }

  lemma CountOne<T>(all: set<T>, todo: set<T>, p: T)
    requires p in todo
    ensures |all - (todo - {p})| == |all - todo| + if p in all then 1 else 0
  {
    assert all - (todo - {p}) == (all - todo) + if p in all then {p} else {};
  }

  lemma RepeatOne(before: seq<Code>, code: Code, n: nat)
    ensures before + Repeat(code, n) + [code] == before + Repeat(code, n + 1)
  {
  }

  lemma AbortedAddsNoRoots(w: World, c: Config, s: Scan, paths: seq<Path>)
    requires s.aborted
    ensures AddRoots(w, c, s, paths) == s
  {
  }

  lemma ReadKeepsGraph(w: World, c: Config, s: Scan, path: Path, id: Id, code: Code)
    requires path in w.files
    ensures ReadSummary(w, c, s, path, id, code).0.graph == s.graph
  {
    ReadSummaryQuiet(w, c, s, path, id, code);
  }
}
