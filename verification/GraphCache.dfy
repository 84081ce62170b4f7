/** The cache is an optimisation: an offline scan with a faithful cache decides what one without it decides. */
module GraphCache {
  import opened Common
  import opened Transcript
  import opened GraphModel
  import opened GraphSteps
  import opened GraphInvariant
  import opened GraphLoop
  import opened GraphClosure
  import opened GraphTheorems

  // Each cached entry is what parsing the file it stands for gives.
  ghost predicate Faithful(w: World, c: Config) {
    && !c.cacheMalformed
    && forall p | IsMeta(w, p) ::
         var key := CacheKey(w.files[p].meta.value.id, w.files[p].stat);
         key in c.cache ==> c.cache[key].Some? && c.cache[key] == w.files[p].content
  }

  ghost predicate NoMalformed(c: Config) {
    forall k | k in c.cache && c.cache[k].Some? :: c.cache[k].value.malformedLines == 0
  }

  function Uncached(c: Config): Config {
    c.(cache := map[])
  }

  // s is a state of the scan with the cache, u the state of the scan without it at the same point.
  ghost predicate Sim(c: Config, s: Scan, u: Scan) {
    && s.graph == u.graph && s.aborted == u.aborted && s.sources == u.sources
    && s.stats.candidates == u.stats.candidates
    && (NoMalformed(c) ==> s.diagnostics == u.diagnostics)
  }

  lemma {:induction false} OfflineChunks(c: Config, s: Scan, n: nat)
    requires !c.live && !s.aborted
    ensures ReadChunks(c, s, n) == s.(checks := ReadChunks(c, s, n).checks)
    decreases n
  {
    if n > 0 {
      OfflineChunks(c, Check(c, s), n - 1);
    }
  }

  lemma OfflineParse(c: Config, s: Scan, f: File, key: CacheKey, code: Code)
    requires !c.live && !s.aborted
    ensures var (t, a) := Parse(c, s, f, key, code);
            && a == f.content && Alike(s, t)
            && t.diagnostics == s.diagnostics + BadContent(f, code)
  {
    OfflineChunks(c, s, f.chunks);
    hide ReadChunks;
  }

  // The diagnostic of a transcript that cannot be parsed, or not every line of it.
  function BadContent(f: File, code: Code): seq<Code> {
    if f.content.None? || f.content.value.malformedLines > 0 then [code] else []
  }

  ghost predicate Alike(s: Scan, t: Scan) {
    t.graph == s.graph && t.aborted == s.aborted && t.sources == s.sources && t.stats.candidates == s.stats.candidates
  }

  /** Offline, a transcript is a valid cache entry without a diagnostic, or the file with that of its content. */
  lemma OfflineRead(w: World, c: Config, s: Scan, path: Path, id: Id, code: Code)
    requires !c.live && !s.aborted && path in w.files
    requires var key := CacheKey(id, w.files[path].stat); key in c.cache ==> c.cache[key].Some?
    ensures var (t, a) := ReadSummary(w, c, s, path, id, code);
            var hit := Hit(c, CacheKey(id, w.files[path].stat));
            && Alike(s, t)
            && a == (if hit.Some? then hit else w.files[path].content)
            && t.diagnostics == s.diagnostics + (if hit.Some? then [] else BadContent(w.files[path], code))
  {
    var f := w.files[path];
    OfflineParse(c, Charge(s, f.stat.size), f, CacheKey(id, f.stat), code);
    hide Parse;
  }

  /** One transcript: the same summary, and the diagnostics differ exactly by that of a malformed hit. */
  lemma ReadSummarySim(w: World, c: Config, s: Scan, u: Scan, path: Path, id: Id, code: Code)
    requires !c.live && !s.aborted && Faithful(w, c) && Sim(c, s, u) && IsFile(w, path, id)
    ensures var (s', a) := ReadSummary(w, c, s, path, id, code);
            var (u', b) := ReadSummary(w, Uncached(c), u, path, id, code);
            && a == b && Sim(c, s', u') && Alike(s, s')
            && (s.diagnostics == u.diagnostics && Hit(c, CacheKey(id, w.files[path].stat)).Some? ==>
                  u'.diagnostics == s'.diagnostics + (if b.value.malformedLines > 0 then [code] else []))
  {
    assert IsMeta(w, path);
    var key := CacheKey(id, w.files[path].stat);
    OfflineRead(w, c, s, path, id, code);
    OfflineRead(w, Uncached(c), u, path, id, code);
    hide ReadSummary;
    assert Hit(c, key).Some? ==> Hit(c, key) == w.files[path].content;
    assert Hit(Uncached(c), key) == None;
  }

  lemma AdmitSim(w: World, c: Config, s: Scan, u: Scan, e: Edge, path: Path)
    requires !c.live && !s.aborted && Faithful(w, c) && Sim(c, s, u) && IsFile(w, path, e.child)
    ensures Sim(c, Admit(w, c, s, e, path), Admit(w, Uncached(c), u, e, path))
  {
    hide ReadSummary, WithAgent, Faithful;
    ReadSummarySim(w, c, s, u, path, e.child, ChildMetaInvalid);
  }

  lemma {:induction false} DigestsSim(w: World, c: Config, s: Scan, u: Scan, paths: seq<Path>, seen: set<int>)
    requires !c.live && !s.aborted && Sim(c, s, u)
    ensures var (s', a) := Digests(w, c, s, paths, seen); var (u', b) := Digests(w, Uncached(c), u, paths, seen);
            a == b && Sim(c, s', u') && !s'.aborted
    decreases paths
  {
    if paths != [] {
      if paths[0] !in w.files {
        DigestsSim(w, c, s, u, paths[1..], seen);
      } else {
        var f := w.files[paths[0]];
        OfflineChunks(c, s, f.chunks);
        OfflineChunks(Uncached(c), u, f.chunks);
        hide ReadChunks;
        DigestsSim(w, c, ReadChunks(c, s, f.chunks), ReadChunks(Uncached(c), u, f.chunks), paths[1..],
                   if f.digest.None? then seen else seen + {f.digest.value});
      }
    }
  }

  lemma ChooseSim(w: World, c: Config, s: Scan, u: Scan, e: Edge, valid: seq<Path>)
    requires !c.live && !s.aborted && Faithful(w, c) && Sim(c, s, u)
    requires valid != [] && forall p | p in valid :: IsFile(w, p, e.child)
    ensures Sim(c, Choose(w, c, s, e, valid), Choose(w, Uncached(c), u, e, valid))
  {
    hide Faithful;
    DigestsSim(w, c, s, u, valid, {});
    hide Digests;
    if |valid| == 1 {
      AdmitSim(w, c, s, u, e, valid[0]);
    } else {
      var s1 := Digests(w, c, s, valid, {}).0;
      var u1 := Digests(w, Uncached(c), u, valid, {}).0;
      AdmitSim(w, c, s1, u1, e, valid[0]);
    }
    hide Admit;
  }

  lemma {:induction false} ValidateSim(w: World, c: Config, s: Scan, u: Scan, id: Id, paths: seq<Path>,
      valid: seq<Path>)
    requires Sim(c, s, u)
    ensures var (s', a) := Validate(w, s, id, paths, valid); var (u', b) := Validate(w, u, id, paths, valid);
            a == b && Sim(c, s', u') && s'.aborted == s.aborted
    decreases paths
  {
    if paths != [] {
      if IsFile(w, paths[0], id) {
        var stat := w.files[paths[0]].stat;
        ValidateSim(w, c, s.(sources := s.sources[paths[0] := stat]), u.(sources := u.sources[paths[0] := stat]),
                    id, paths[1..], valid + [paths[0]]);
      } else {
        ValidateSim(w, c, s.Diagnose(ChildMetaInvalid), u.Diagnose(ChildMetaInvalid), id, paths[1..], valid);
      }
    }
  }

  lemma {:induction false} WalkDaySim(w: World, c: Config, s: Scan, u: Scan, id: Id, paths: seq<Path>, found: seq<Path>)
    requires Sim(c, s, u)
    ensures var a := WalkDay(w, c, s, id, paths, found); var b := WalkDay(w, Uncached(c), u, id, paths, found);
            a.1 == b.1 && a.2 == b.2 && Sim(c, a.0, b.0) && a.0.aborted == s.aborted
    decreases paths
  {
    if paths != [] {
      if paths[0] in w.roots {
        WalkDaySim(w, c, s, u, id, paths[1..], found);
      } else if s.stats.candidates < c.maxCandidates {
        WalkDaySim(w, c, s.(stats := s.stats.(candidates := s.stats.candidates + 1)),
                   u.(stats := u.stats.(candidates := u.stats.candidates + 1)), id, paths[1..],
                   if IsFile(w, paths[0], id) then found + [paths[0]] else found);
      }
    }
  }

  lemma {:induction false} WalkDaysSim(w: World, c: Config, s: Scan, u: Scan, id: Id, day: nat, days: nat,
      found: seq<Path>)
    requires !c.live && !s.aborted && Sim(c, s, u)
    ensures var a := WalkDays(w, c, s, id, day, days, found);
            var b := WalkDays(w, Uncached(c), u, id, day, days, found);
            a.1 == b.1 && Sim(c, a.0, b.0) && !a.0.aborted
    decreases days - day
  {
    if day < days {
      var s1 := Check(c, s);
      var u1 := Check(Uncached(c), u);
      var s2 := s1.(stats := s1.stats.(days := s1.stats.days + 1));
      var u2 := u1.(stats := u1.stats.(days := u1.stats.days + 1));
      WalkDaySim(w, c, s2, u2, id, w.dayFiles(day), found);
      var (s3, more, full) := WalkDay(w, c, s2, id, w.dayFiles(day), found);
      var (u3, more', full') := WalkDay(w, Uncached(c), u2, id, w.dayFiles(day), found);
      hide WalkDay;
      if !full {
        WalkDaysSim(w, c, s3, u3, id, day + 1, days, more);
      }
    }
  }

  lemma LocateSim(w: World, c: Config, s: Scan, u: Scan, e: Edge)
    requires !c.live && !s.aborted && Sim(c, s, u)
    ensures var a := Locate(w, c, s, e); var b := Locate(w, Uncached(c), u, e);
            a.1 == b.1 && Sim(c, a.0, b.0) && !a.0.aborted
  {
    var span := w.fallbackSpan(e);
    WalkDaysSim(w, c, s.Diagnose(FallbackLimitExceeded), u.Diagnose(FallbackLimitExceeded), e.child, 0, c.maxDays, []);
    WalkDaysSim(w, c, s, u, e.child, 0, span, []);
    hide WalkDays;
  }

  lemma TurnSim(w: World, c: Config, s: Scan, u: Scan)
    requires !c.live && !s.aborted && Faithful(w, c) && Sim(c, s, u) && s.graph.queue != []
    ensures Sim(c, Turn(w, c, s), Turn(w, Uncached(c), u))
  {
    var e := s.graph.queue[0];
    var s0 := s.(graph := s.graph.(queue := s.graph.queue[1..], attempted := s.graph.attempted + {e.child}));
    var u0 := u.(graph := s0.graph);
    LocateSim(w, c, s0, u0, e);
    var (s1, paths) := Locate(w, c, s0, e);
    var u1 := Locate(w, Uncached(c), u0, e).0;
    ValidateSim(w, c, s1, u1, e.child, paths, []);
    ValidateKeepsFiles(w, s1, e.child, paths, []);
    var (s2, valid) := Validate(w, s1, e.child, paths, []);
    var u2 := Validate(w, u1, e.child, paths, []).0;
    hide Faithful, Locate, Validate, IsFile;
    if valid != [] {
      ChooseSim(w, c, s2, u2, e, valid);
    }
    hide Choose;
  }

  lemma AddRootSim(w: World, c: Config, s: Scan, u: Scan, path: Path)
    requires !c.live && !s.aborted && Faithful(w, c) && Sim(c, s, u)
    ensures Sim(c, AddRoot(w, c, s, path), AddRoot(w, Uncached(c), u, path))
  {
    hide WithRoot, Faithful, ReadSummary;
    if path in w.files && w.files[path].meta.Some? {
      var stat := w.files[path].stat;
      ReadSummarySim(w, c, s.(sources := s.sources[path := stat]), u.(sources := u.sources[path := stat]), path,
                     w.files[path].meta.value.id, ParentMetaInvalid);
    }
  }

  lemma {:induction false} AddRootsSim(w: World, c: Config, s: Scan, u: Scan, paths: seq<Path>)
    requires !c.live && Faithful(w, c) && Sim(c, s, u)
    ensures Sim(c, AddRoots(w, c, s, paths), AddRoots(w, Uncached(c), u, paths))
    decreases paths
  {
    hide AddRoot, Faithful;
    if paths != [] && !s.aborted {
      AddRootSim(w, c, Check(c, s), Check(Uncached(c), u), paths[0]);
      AddRootsSim(w, c, AddRoot(w, c, Check(c, s), paths[0]),
                  AddRoot(w, Uncached(c), Check(Uncached(c), u), paths[0]), paths[1..]);
    }
  }

  lemma {:induction false} LoopSim(w: World, c: Config, s: Scan, u: Scan)
    requires !c.live && Faithful(w, c) && Sim(c, s, u) && Noted(s) && Noted(u)
    requires s.graph.queued <= Universe(w, c) && u.graph.queued <= Universe(w, Uncached(c))
    ensures Sim(c, Loop(w, c, s), Loop(w, Uncached(c), u))
    decreases Work(w, c, s.graph)
  {
    hide Turn, Faithful, Universe;
    if s.graph.queue != [] && !s.aborted {
      var s1, u1 := Check(c, s), Check(Uncached(c), u);
      TurnProgress(w, c, s1);
      TurnProgress(w, Uncached(c), u1);
      TurnSim(w, c, s1, u1);
      LoopSim(w, c, Turn(w, c, s1), Turn(w, Uncached(c), u1));
    }
  }

  /**
   Offline and with a faithful cache, roots, agents and everything else in the graph are those of the scan
   without a cache; diagnostics and verdict are too when no cached summary has malformed lines.
   */
  lemma CacheTransparent(w: World, c: Config)
    requires !c.live && Faithful(w, c)
    ensures Result(w, c).graph == Result(w, Uncached(c)).graph
    ensures NoMalformed(c) ==> Result(w, c).diagnostics == Result(w, Uncached(c)).diagnostics
                               && VerdictOf(Result(w, c)) == VerdictOf(Result(w, Uncached(c)))
  {
    var s1 := if w.roots == [] then START.Diagnose(ParentMetaInvalid) else START;
    AddRootsSim(w, c, Check(c, s1), Check(Uncached(c), s1), w.roots);
    hide AddRoots, EnqueueAll;
    assert Sim(c, Begin(w, c), Begin(w, Uncached(c)));
    BeginKeeps(w, c);
    BeginKeeps(w, Uncached(c));
    hide Begin, Faithful, Universe, Matches, GraphInv;
    LoopSim(w, c, Begin(w, c), Begin(w, Uncached(c)));
    hide Loop;
    var a, b := Loop(w, c, Begin(w, c)), Loop(w, Uncached(c), Begin(w, Uncached(c)));
    RecheckSim(w, c, a, b);
  }

  lemma RecheckSim(w: World, c: Config, s: Scan, u: Scan)
    requires !c.live && Sim(c, s, u)
    ensures Sim(c, Recheck(w, c, s), Recheck(w, Uncached(c), u))
  {
    assert ChangedSources(w, Check(c, s)) == ChangedSources(w, Check(Uncached(c), u));
  }
}
