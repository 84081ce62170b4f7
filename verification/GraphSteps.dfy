/** What the parts of one scan step change, and that they never fail in silence. */
module GraphSteps {
  import opened Common
  import opened Transcript
  import opened GraphModel

  ghost predicate WithinLimits(c: Config, s: Scan) {
    (c.live ==> s.stats.uncachedBytes <= c.maxBytes) && s.stats.candidates <= c.maxCandidates
  }

  // Only the clock, the counters, the cache, the sources and the diagnostics may differ; diagnostics
  // only grow, and a scan that aborts has said why.
  ghost predicate Quiet(c: Config, s: Scan, t: Scan) {
    && t.graph == s.graph
    && |s.diagnostics| <= |t.diagnostics|
    && (s.aborted ==> t.aborted)
    && (t.aborted ==> s.aborted || t.diagnostics != [])
    && (WithinLimits(c, s) ==> WithinLimits(c, t))
  }

  lemma QuietTrans(c: Config, s: Scan, t: Scan, u: Scan)
    requires Quiet(c, s, t) && Quiet(c, t, u)
    ensures Quiet(c, s, u)
  {
  }

  lemma {:induction false} ReadChunksQuiet(c: Config, s: Scan, n: nat)
    ensures Quiet(c, s, ReadChunks(c, s, n))
    decreases n
  {
    var t := Check(c, s);
    assert Quiet(c, s, t);
    if !t.aborted && n > 0 {
      ReadChunksQuiet(c, t, n - 1);
      QuietTrans(c, s, t, ReadChunks(c, s, n));
    }
  }

  // The summary the scan gets for a file: the valid cache entry of its id and stat, else its content.
  ghost predicate ReadFrom(w: World, c: Config, path: Path, id: Id, summary: Summary) {
    && path in w.files
    && var hit := Hit(c, CacheKey(id, w.files[path].stat));
       if hit.Some? then hit.value == summary else w.files[path].content == Some(summary)
  }

  /** Reading a transcript either gives that summary or leaves a diagnostic. */
  lemma ReadSummaryQuiet(w: World, c: Config, s: Scan, path: Path, id: Id, code: Code)
    requires path in w.files
    ensures var (t, summary) := ReadSummary(w, c, s, path, id, code);
            && Quiet(c, s, t)
            && (summary.None? ==> t.diagnostics != [] || s.aborted)
            && (summary.Some? ==> ReadFrom(w, c, path, id, summary.value))
  {
    var f := w.files[path];
    var key := CacheKey(id, f.stat);
    if Hit(c, key).None? {
      var s1 := if key in c.cache then s.Diagnose(CacheInvalid) else s;
      ParseQuiet(c, Charge(s1, f.stat.size), f, key, code);
      hide Parse;
    }
  }

  lemma ParseQuiet(c: Config, s: Scan, f: File, key: CacheKey, code: Code)
    ensures var (t, summary) := Parse(c, s, f, key, code);
            && Quiet(c, s, t)
            && (summary.None? ==> t.diagnostics != [] || s.aborted)
            && (summary.Some? ==> summary == f.content)
  {
    ReadChunksQuiet(c, s, f.chunks);
    hide ReadChunks;
  }

  lemma {:induction false} WalkDayQuiet(w: World, c: Config, s: Scan, id: Id, paths: seq<Path>, found: seq<Path>)
    ensures Quiet(c, s, WalkDay(w, c, s, id, paths, found).0)
    decreases paths
  {
    if paths != [] {
      if paths[0] in w.roots {
        WalkDayQuiet(w, c, s, id, paths[1..], found);
      } else if s.stats.candidates < c.maxCandidates {
        var s1 := s.(stats := s.stats.(candidates := s.stats.candidates + 1));
        WalkDayQuiet(w, c, s1, id, paths[1..], if IsFile(w, paths[0], id) then found + [paths[0]] else found);
      }
    }
  }

  lemma {:induction false} WalkDaysQuiet(w: World, c: Config, s: Scan, id: Id, day: nat, days: nat, found: seq<Path>)
    ensures Quiet(c, s, WalkDays(w, c, s, id, day, days, found).0)
    decreases days - day
  {
    if day < days {
      var s1 := Check(c, s);
      if !s1.aborted {
        var s2 := s1.(stats := s1.stats.(days := s1.stats.days + 1));
        WalkDayQuiet(w, c, s2, id, w.dayFiles(day), found);
        var (s3, more, full) := WalkDay(w, c, s2, id, w.dayFiles(day), found);
        if !full {
          WalkDaysQuiet(w, c, s3, id, day + 1, days, more);
        }
      }
    }
  }

  lemma LocateQuiet(w: World, c: Config, s: Scan, e: Edge)
    ensures Quiet(c, s, Locate(w, c, s, e).0)
  {
    if w.direct(e) == [] {
      var span := w.fallbackSpan(e);
      var s1 := if span > c.maxDays then s.Diagnose(FallbackLimitExceeded) else s;
      WalkDaysQuiet(w, c, s1, e.child, 0, if span > c.maxDays then c.maxDays else span, []);
    }
  }

  /** Candidates that all fail validation leave a diagnostic. */
  lemma {:induction false} ValidateQuiet(w: World, c: Config, s: Scan, id: Id, paths: seq<Path>, valid: seq<Path>)
    ensures var (t, good) := Validate(w, s, id, paths, valid);
            Quiet(c, s, t) && (good == [] && paths != [] ==> t.diagnostics != []) && |good| >= |valid|
    decreases paths
  {
    if paths != [] {
      if IsFile(w, paths[0], id) {
        ValidateQuiet(w, c, s.(sources := s.sources[paths[0] := w.files[paths[0]].stat]), id, paths[1..], valid
            + [paths[0]]);
      } else {
        ValidateQuiet(w, c, s.Diagnose(ChildMetaInvalid), id, paths[1..], valid);
      }
    }
  }

  lemma {:induction false} DigestsQuiet(w: World, c: Config, s: Scan, paths: seq<Path>, seen: set<int>)
    ensures Quiet(c, s, Digests(w, c, s, paths, seen).0)
    decreases paths
  {
    if paths != [] {
      if paths[0] !in w.files {
        DigestsQuiet(w, c, s, paths[1..], seen);
      } else {
        var f := w.files[paths[0]];
        ReadChunksQuiet(c, s, f.chunks);
        var s1 := ReadChunks(c, s, f.chunks);
        DigestsQuiet(w, c, s1, paths[1..], if s1.aborted || f.digest.None? then seen else seen + {f.digest.value});
      }
    }
  }

  // ---------- the queue ----------

  // Every started edge of the list is queued, now or before.
  ghost predicate Queued(edges: seq<Edge>, queued: set<string>) {
    forall e | e in edges && e.kind == Started && e.child != "" :: EdgeKey(e) in queued
  }

  // From g to h the queue got the entries `added`, each with a key of its own that was not queued before.
  ghost predicate Grown(g: Graph, h: Graph, added: seq<Edge>) {
    && h == g.(queue := g.queue + added, queued := h.queued)
    && g.queued <= h.queued && |h.queued| == |g.queued| + |added|
    && (forall e | e in added :: EdgeKey(e) in h.queued && e.kind == Started && e.child != "")
    && (forall key | key in h.queued :: key in g.queued || exists e :: e in added && EdgeKey(e) == key)
  }

  lemma EnqueueGrows(g: Graph, e: Edge) returns (added: seq<Edge>)
    ensures Grown(g, Enqueue(g, e), added)
    ensures forall x | x in added :: x == e
    ensures Queued([e], Enqueue(g, e).queued)
  {
    if e.child == "" || e.kind != Started || EdgeKey(e) in g.queued {
      added := [];
      assert g.queue + added == g.queue;
    } else {
      added := [e];
    }
  }

  lemma GrownTrans(g: Graph, h: Graph, k: Graph, a: seq<Edge>, b: seq<Edge>)
    requires Grown(g, h, a) && Grown(h, k, b)
    ensures Grown(g, k, a + b)
  {
    assert g.queue + (a + b) == g.queue + a + b;
  }

  /** Enqueueing appends one entry of the list for each key it adds, and misses no started edge. */
  lemma {:induction false} EnqueueAllGrows(g: Graph, edges: seq<Edge>) returns (added: seq<Edge>)
    ensures Grown(g, EnqueueAll(g, edges), added)
    ensures forall x | x in added :: x in edges
    ensures Queued(edges, EnqueueAll(g, edges).queued)
    decreases edges
  {
    if edges == [] {
      added := [];
      assert g.queue + added == g.queue;
    } else {
      var first := EnqueueGrows(g, edges[0]);
      var rest := EnqueueAllGrows(Enqueue(g, edges[0]), edges[1..]);
      hide Enqueue;
      GrownTrans(g, Enqueue(g, edges[0]), EnqueueAll(g, edges), first, rest);
      added := first + rest;
      assert forall e | e in edges :: e == edges[0] || e in edges[1..];
      assert EdgeKey(edges[0]) in Enqueue(g, edges[0]).queued || edges[0].kind != Started || edges[0].child == "";
    }
  }
}
