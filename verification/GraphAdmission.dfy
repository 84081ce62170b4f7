/** Exactly which files a scan finds for a child, and exactly which of them joins the agents. */
module GraphAdmission {
  import opened Common
  import opened Transcript
  import opened GraphModel
  import opened GraphSteps
  import opened GraphInvariant
  import opened GraphReads

  // ---------- the fallback walk ----------

  function Outside(w: World, paths: seq<Path>): nat {
    if paths == [] then 0 else (if paths[0] in w.roots then 0 else 1) + Outside(w, paths[1..])
  }

  // A file of this id that is no root.
  predicate Foreign(w: World, p: Path, id: Id) {
    p !in w.roots && IsFile(w, p, id)
  }

  /** One day gives all its files of the id that are no roots, or ends the walk exactly where the candidates run out. */
  lemma {:induction false} WalkDayExactly(w: World, c: Config, s: Scan, id: Id, paths: seq<Path>, found: seq<Path>)
    ensures var (t, out, full) := WalkDay(w, c, s, id, paths, found);
            && t == s.(stats := s.stats.(candidates := t.stats.candidates), diagnostics := t.diagnostics)
            && t.diagnostics == s.diagnostics + (if full then [FallbackLimitExceeded] else [])
            && (full <==> Outside(w, paths) > 0 && s.stats.candidates + Outside(w, paths) > c.maxCandidates)
            && t.stats.candidates - s.stats.candidates <= Outside(w, paths) && s.stats.candidates <= t.stats.candidates
            && (!full ==> t.stats.candidates == s.stats.candidates + Outside(w, paths))
            && (s.stats.candidates <= c.maxCandidates ==> t.stats.candidates <= c.maxCandidates)
            && (forall p | p in out :: p in found || (p in paths && Foreign(w, p, id)))
            && (forall p | p in found :: p in out)
            && (!full ==> forall p | p in paths && Foreign(w, p, id) :: p in out)
    decreases paths
  {
    assert s.diagnostics + [] == s.diagnostics;
    if paths != [] {
      assert forall p :: p in paths <==> p == paths[0] || p in paths[1..];
      if paths[0] in w.roots {
        WalkDayExactly(w, c, s, id, paths[1..], found);
      } else if s.stats.candidates < c.maxCandidates {
        var s1 := s.(stats := s.stats.(candidates := s.stats.candidates + 1));
        WalkDayExactly(w, c, s1, id, paths[1..], if IsFile(w, paths[0], id) then found + [paths[0]] else found);
      }
      hide IsFile;
    }
  }

  ghost predicate OnDays(w: World, from: nat, to: nat, p: Path) {
    exists d :: from <= d < to && p in w.dayFiles(d)
  }

  lemma OnDaysStep(w: World, from: nat, to: nat)
    requires from < to
    ensures forall p :: OnDays(w, from, to, p) <==> p in w.dayFiles(from) || OnDays(w, from + 1, to, p)
  {
  }

  /** A walk that notes nothing has found exactly the foreign files of its days; else it stays below both limits. */
  lemma {:induction false} WalkDaysExactly(w: World, c: Config, s: Scan, id: Id, day: nat, days: nat, found: seq<Path>)
    returns (all: seq<Path>)
    requires day <= days
    ensures var (t, out) := WalkDays(w, c, s, id, day, days, found);
            && t == s.(stats := t.stats, checks := t.checks, aborted := t.aborted, diagnostics := t.diagnostics)
            && t.stats == s.stats.(candidates := t.stats.candidates, days := t.stats.days)
            && s.diagnostics <= t.diagnostics && s.stats.days <= t.stats.days <= s.stats.days + days - day
            && (s.stats.candidates <= c.maxCandidates ==> t.stats.candidates <= c.maxCandidates)
            && (out == all || out == w.arranged(all))
            && (forall p | p in all :: p in found || (OnDays(w, day, days, p) && Foreign(w, p, id)))
            && (t.diagnostics == s.diagnostics && !s.aborted ==>
                  && out == w.arranged(all) && !t.aborted && t.stats.days == s.stats.days + days - day
                  && forall p :: p in all <==> p in found || (OnDays(w, day, days, p) && Foreign(w, p, id)))
    decreases days - day
  {
    all := found;
    if day < days {
      OnDaysStep(w, day, days);
      var s1 := Check(c, s);
      if !s1.aborted {
        hide OnDays, Foreign, Outside;
        var s2 := s1.(stats := s1.stats.(days := s1.stats.days + 1));
        WalkDayExactly(w, c, s2, id, w.dayFiles(day), found);
        var (s3, more, full) := WalkDay(w, c, s2, id, w.dayFiles(day), found);
        if full {
          all := more;
        } else {
          all := WalkDaysExactly(w, c, s3, id, day + 1, days, more);
        }
        hide WalkDay;
      }
    }
  }

  /**
   Locating takes the direct candidates as they are. Without any it gives, unless it notes a limit, exactly the
   files of the child on the fallback days that are no roots.
   */
  lemma LocateExactly(w: World, c: Config, s: Scan, e: Edge) returns (all: seq<Path>)
    ensures var (t, out) := Locate(w, c, s, e);
            && (w.direct(e) != [] ==> t == s && out == w.direct(e))
            && t == s.(stats := t.stats, checks := t.checks, aborted := t.aborted, diagnostics := t.diagnostics)
            && s.diagnostics <= t.diagnostics && t.stats.days <= s.stats.days + c.maxDays
            && t.stats.uncachedBytes == s.stats.uncachedBytes
            && (s.stats.candidates <= c.maxCandidates ==> t.stats.candidates <= c.maxCandidates)
            && (w.direct(e) == [] ==>
                  && (out == all || out == w.arranged(all))
                  && forall p | p in all :: OnDays(w, 0, w.fallbackSpan(e), p) && Foreign(w, p, e.child))
            && (w.direct(e) == [] && t.diagnostics == s.diagnostics && !s.aborted ==>
                  && out == w.arranged(all) && w.fallbackSpan(e) <= c.maxDays
                  && forall p :: p in all <==> OnDays(w, 0, w.fallbackSpan(e), p) && Foreign(w, p, e.child))
  {
    all := [];
    if w.direct(e) == [] {
      var span := w.fallbackSpan(e);
      var s1 := if span > c.maxDays then s.Diagnose(FallbackLimitExceeded) else s;
      all := WalkDaysExactly(w, c, s1, e.child, 0, if span > c.maxDays then c.maxDays else span, []);
      hide WalkDays, Foreign;
      if span > c.maxDays {
        assert forall p :: OnDays(w, 0, c.maxDays, p) ==> OnDays(w, 0, span, p);
      }
      hide OnDays;
    }
  }

  // ---------- the candidates ----------

  ghost predicate Sourced(w: World, before: map<Path, Stat>, after: map<Path, Stat>, used: set<Path>) {
    && (forall p :: p in after <==> p in before || p in used)
    && (forall p | p in after ::
          if p in used then p in w.files && after[p] == w.files[p].stat else p in before && after[p] == before[p])
  }

  ghost function FilesOf(w: World, paths: seq<Path>, id: Id): set<Path> {
    set p | p in paths && IsFile(w, p, id)
  }

  // The first entry of `good` after `valid` is the first file of the id.
  ghost predicate FirstFile(w: World, paths: seq<Path>, id: Id, first: Path) {
    exists k :: 0 <= k < |paths| && paths[k] == first && IsFile(w, first, id)
                && forall j | 0 <= j < k :: !IsFile(w, paths[j], id)
  }

  lemma FirstStep(w: World, paths: seq<Path>, id: Id, first: Path)
    requires paths != []
    ensures FirstFile(w, paths, id, first)
            <==> if IsFile(w, paths[0], id) then first == paths[0] else FirstFile(w, paths[1..], id, first)
  {
    hide IsFile;
    if IsFile(w, paths[0], id) {
      assert first == paths[0] ==> FirstFile(w, paths, id, first);
    } else if FirstFile(w, paths[1..], id, first) {
      var k :| 0 <= k < |paths[1..]| && paths[1..][k] == first
               && forall j | 0 <= j < k :: !IsFile(w, paths[1..][j], id);
      assert paths[k + 1] == first;
      assert forall j | 0 < j < k + 1 :: paths[j] == paths[1..][j - 1];
    } else if FirstFile(w, paths, id, first) {
      var k :| 0 <= k < |paths| && paths[k] == first && forall j | 0 <= j < k :: !IsFile(w, paths[j], id);
      assert paths[1..][k - 1] == first;
      assert forall j | 0 <= j < k - 1 :: paths[1..][j] == paths[j + 1];
    }
  }

  lemma FilesStep(w: World, paths: seq<Path>, id: Id)
    requires paths != []
    ensures FilesOf(w, paths, id)
            == FilesOf(w, paths[1..], id) + (if IsFile(w, paths[0], id) then {paths[0]} else {})
  {
    assert forall p :: p in paths <==> p == paths[0] || p in paths[1..];
  }

  /** Validation keeps exactly the candidates that are files of the child, the first one first, and notes the rest. */
  lemma {:induction false} ValidateExactly(w: World, s: Scan, id: Id, paths: seq<Path>, valid: seq<Path>)
    ensures var (t, good) := Validate(w, s, id, paths, valid);
            && t == s.(diagnostics := t.diagnostics, sources := t.sources)
            && s.diagnostics <= t.diagnostics
            && (forall p :: p in good <==> p in valid || p in FilesOf(w, paths, id))
            && |good| + |t.diagnostics| == |valid| + |s.diagnostics| + |paths|
            && Sourced(w, s.sources, t.sources, FilesOf(w, paths, id))
    decreases paths
  {
    if paths != [] {
      FilesStep(w, paths, id);
      hide FilesOf;
      if IsFile(w, paths[0], id) {
        var s1 := s.(sources := s.sources[paths[0] := w.files[paths[0]].stat]);
        ValidateExactly(w, s1, id, paths[1..], valid + [paths[0]]);
        hide IsFile;
      } else {
        hide IsFile;
        ValidateExactly(w, s.Diagnose(ChildMetaInvalid), id, paths[1..], valid);
      }
    }
  }

  /** What validation notes is the code of a bad child file, and what it keeps first is the first good one. */
  lemma {:induction false} ValidateOrder(w: World, s: Scan, id: Id, paths: seq<Path>, valid: seq<Path>)
    ensures var (t, good) := Validate(w, s, id, paths, valid);
            && valid <= good && |good| - |valid| <= |paths|
            && t.diagnostics == s.diagnostics + Repeat(ChildMetaInvalid, |paths| - (|good| - |valid|))
            && (|good| > |valid| ==> FirstFile(w, paths, id, good[|valid|]))
    decreases paths
  {
    var (t, good) := Validate(w, s, id, paths, valid);
    if paths != [] {
      if IsFile(w, paths[0], id) {
        var s1 := s.(sources := s.sources[paths[0] := w.files[paths[0]].stat]);
        ValidateOrder(w, s1, id, paths[1..], valid + [paths[0]]);
        assert (valid + [paths[0]])[|valid|] == paths[0];
        FirstStep(w, paths, id, paths[0]);
      } else {
        var s1 := s.Diagnose(ChildMetaInvalid);
        ValidateOrder(w, s1, id, paths[1..], valid);
        RepeatFirst(ChildMetaInvalid, |paths[1..]| - (|good| - |valid|));
        if |good| > |valid| {
          FirstStep(w, paths, id, good[|valid|]);
        }
      }
    }
  }

  lemma {:induction false} RepeatFirst(code: Code, n: nat)
    ensures Repeat(code, n + 1) == [code] + Repeat(code, n)
  {
    if n > 0 {
      RepeatFirst(code, n - 1);
    }
  }

  ghost function DigestsOf(w: World, paths: seq<Path>): set<int> {
    set p | p in paths && p in w.files && w.files[p].digest.Some? :: w.files[p].digest.value
  }

  /** In time, exactly the digests of all candidates that have one are compared. */
  lemma {:induction false} DigestsExactly(w: World, c: Config, s: Scan, paths: seq<Path>, seen: set<int>)
    ensures var (t, out) := Digests(w, c, s, paths, seen);
            && t == s.(checks := t.checks, aborted := t.aborted, diagnostics := t.diagnostics)
            && (s.aborted ==> t == s && out == seen)
            && (!s.aborted ==> t.diagnostics == s.diagnostics + (if t.aborted then [LiveDeadlineExceeded] else []))
            && seen <= out <= seen + DigestsOf(w, paths)
            && (!t.aborted ==> out == seen + DigestsOf(w, paths))
    decreases paths
  {
    assert s.diagnostics + [] == s.diagnostics;
    if paths != [] {
      assert forall p :: p in paths <==> p == paths[0] || p in paths[1..];
      if paths[0] !in w.files {
        DigestsExactly(w, c, s, paths[1..], seen);
        assert DigestsOf(w, paths) == DigestsOf(w, paths[1..]);
      } else {
        var f := w.files[paths[0]];
        var s1 := ReadChunks(c, s, f.chunks);
        if !s.aborted {
          ReadChunksExactly(c, s, f.chunks);
        } else {
          assert s1 == s;
        }
        hide ReadChunks, InTime;
        var more := if s1.aborted || f.digest.None? then seen else seen + {f.digest.value};
        DigestsExactly(w, c, s1, paths[1..], more);
        assert DigestsOf(w, paths)
               == DigestsOf(w, paths[1..]) + (if f.digest.Some? then {f.digest.value} else {});
      }
    }
  }

  // Some digest was taken, and no two differ.
  ghost predicate Agree(w: World, paths: seq<Path>)
    requires forall p | p in paths :: p in w.files
  {
    && (exists p :: p in paths && w.files[p].digest.Some?)
    && forall p, q | p in paths && q in paths && w.files[p].digest.Some? && w.files[q].digest.Some? ::
         w.files[p].digest == w.files[q].digest
  }

  lemma OnlyOne<T>(s: set<T>) returns (d: T)
    requires |s| == 1
    ensures s == {d}
  {
    d :| d in s;
    assert |s - {d}| == 0;
  }

  lemma AgreeExactly(w: World, paths: seq<Path>)
    requires forall p | p in paths :: p in w.files
    ensures |DigestsOf(w, paths)| == 1 <==> Agree(w, paths)
  {
    var seen := DigestsOf(w, paths);
    assert forall p | p in paths && w.files[p].digest.Some? :: w.files[p].digest.value in seen;
    if Agree(w, paths) {
      var p :| p in paths && w.files[p].digest.Some?;
      assert seen == {w.files[p].digest.value};
    }
    if |seen| == 1 {
      var d := OnlyOne(seen);
      assert d in seen;
    }
  }

  /** Several candidates are taken for one file exactly when their digests agree, unless the clock cuts in. */
  lemma ChooseExactly(w: World, c: Config, s: Scan, e: Edge, valid: seq<Path>)
    requires valid != [] && forall p | p in valid :: IsFile(w, p, e.child)
    ensures var t := Choose(w, c, s, e, valid); var s1 := Digests(w, c, s, valid, {}).0;
            if |valid| == 1 then t == Admit(w, c, s, e, valid[0])
            else if s1.aborted then t == s1 || t == Admit(w, c, s1, e, valid[0])
            else t == if Agree(w, valid) then Admit(w, c, s1, e, valid[0]) else s1.Diagnose(DuplicateRolloutId)
  {
    DigestsExactly(w, c, s, valid, {});
    AgreeExactly(w, valid);
    assert {} + DigestsOf(w, valid) == DigestsOf(w, valid);
    hide Digests, Admit, Agree, DigestsOf;
  }

  // ---------- admission ----------

  // The file is a subagent of this session, below an accepted parent that the edge names, or that the file names to
  // a signal without one.
  ghost predicate Belongs(c: Config, g: Graph, e: Edge, meta: Meta) {
    && meta.isSubagent
    && (meta.sessionId == "" || meta.sessionId == c.canonicalId || exists r :: r in g.roots && r.id == meta.sessionId)
    && meta.parentId in g.accepted && Vouches(e, meta.parentId)
  }

  ghost predicate HasRoom(c: Config, g: Graph) {
    |g.roots| + |g.agents| < c.maxNodes
  }

  /**
   A located child joins the agents exactly when its file belongs there, there is room, and its transcript can be
   read. A file that does not belong leaves one diagnostic: for no subagent, for one that names a session, or for one
   that names none; a file without room ends the scan.
   */
  lemma AdmitExactly(w: World, c: Config, s: Scan, e: Edge, path: Path)
    requires IsFile(w, path, e.child) && "" !in s.graph.accepted
    ensures var t := Admit(w, c, s, e, path); var meta := w.files[path].meta.value; var g := s.graph;
            && (!Belongs(c, g, e, meta) ==>
                  t == s.Diagnose(if !meta.isSubagent then ChildMetaInvalid
                                  else if meta.sessionId == "" then LegacyChainUnproven else RootMismatch))
            && (Belongs(c, g, e, meta) && !HasRoom(c, g) ==> t == s.Abort(GraphLimitExceeded))
            && (Belongs(c, g, e, meta) && HasRoom(c, g) ==>
                  var (read, summary) := ReadSummary(w, c, s, path, e.child, ChildMetaInvalid);
                  && t == read.(graph := t.graph) && (summary.Some? <==> CanRead(w, c, s, path, e.child))
                  && t.graph.agents == g.agents + (if summary.None? then [] else
                       [Agent(e.child, meta.parentId,
                              if meta.declaredDepth != 0 then meta.declaredDepth
                              else if meta.parentId in g.depths then g.depths[meta.parentId] + 1 else 1,
                              path, summary.value)])
                  && (summary.None? ==> t.graph == g))
  {
    var meta := w.files[path].meta.value;
    assert s.graph.agents + [] == s.graph.agents;
    ObjectionExactly(c, s.graph, e, meta);
    if Belongs(c, s.graph, e, meta) && HasRoom(c, s.graph) {
      ReadExactly(w, c, s, path, e.child, ChildMetaInvalid);
      var (s1, summary) := ReadSummary(w, c, s, path, e.child, ChildMetaInvalid);
      hide ReadSummary, CanRead, Belongs, Objection, Trouble;
      if summary.Some? {
        var agent := Agent(e.child, meta.parentId, DepthOf(s1.graph, meta), path, summary.value);
        var added := EnqueueAllGrows(Joined(s.graph, agent), summary.value.edges);
        hide EnqueueAll;
      }
    } else {
      hide Belongs, Objection, ReadSummary;
    }
  }

  lemma ObjectionExactly(c: Config, g: Graph, e: Edge, meta: Meta)
    requires "" !in g.accepted
    ensures Objection(c, g, e, meta)
            == if Belongs(c, g, e, meta) then None
               else Some(if !meta.isSubagent then ChildMetaInvalid
                         else if meta.sessionId == "" then LegacyChainUnproven else RootMismatch)
  {
    assert meta.sessionId in g.RootIds() <==> exists r :: r in g.roots && r.id == meta.sessionId;
  }
}
