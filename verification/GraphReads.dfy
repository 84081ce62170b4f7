/** Exactly when the parts of a scan succeed: the clock, reading, locating and comparing files. */
module GraphReads {
  import opened Common
  import opened Transcript
  import opened GraphModel
  import opened GraphSteps

  // ---------- the clock and a transcript ----------

  // No check of the clock from the first number up to the second, not included, comes too late.
  ghost predicate InTime(c: Config, from: nat, to: nat) {
    c.live ==> forall k | from <= k < to :: !c.late(k)
  }

  /** A file of n chunks is read exactly when none of n + 1 checks is late; the first late one aborts the scan. */
  lemma {:induction false} ReadChunksExactly(c: Config, s: Scan, n: nat)
    requires !s.aborted
    ensures var t := ReadChunks(c, s, n);
            && (t.aborted <==> !InTime(c, s.checks, s.checks + n + 1))
            && t == s.(aborted := t.aborted, checks := t.checks, diagnostics := t.diagnostics)
            && t.diagnostics == (if t.aborted then s.diagnostics + [LiveDeadlineExceeded] else s.diagnostics)
            && s.checks < t.checks <= s.checks + n + 1 && (!t.aborted ==> t.checks == s.checks + n + 1)
            && (t.aborted ==> c.live && c.late(t.checks - 1))
    decreases n
  {
    var t := Check(c, s);
    if !t.aborted && n > 0 {
      ReadChunksExactly(c, t, n - 1);
    }
  }

  ghost predicate Cached(c: Config, key: CacheKey) {
    key in c.cache && c.cache[key].Some?
  }

  ghost predicate WithinBudget(c: Config, s: Scan, f: File) {
    c.live ==> s.stats.uncachedBytes + f.stat.size <= c.maxBytes
  }

  // A valid cache entry needs nothing else; else the file must be paid for, read in time and parsed.
  ghost predicate CanRead(w: World, c: Config, s: Scan, path: Path, id: Id)
    requires path in w.files
  {
    var f := w.files[path];
    || Cached(c, CacheKey(id, f.stat))
    || (&& WithinBudget(c, s, f) && !s.aborted && InTime(c, s.checks, s.checks + f.chunks + 1) && f.content.Some?)
  }

  // Reading ends the scan: over the byte budget, or out of time.
  ghost predicate Stops(c: Config, s: Scan, f: File, key: CacheKey) {
    !Cached(c, key) && (!WithinBudget(c, s, f) || !InTime(c, s.checks, s.checks + f.chunks + 1))
  }

  // What went wrong, if anything, with a file that no valid cache entry stands for.
  ghost function Trouble(c: Config, s: Scan, f: File, code: Code): seq<Code> {
    if !WithinBudget(c, s, f) then [LiveByteBudgetExceeded]
    else if s.aborted then []
    else if !InTime(c, s.checks, s.checks + f.chunks + 1) then [LiveDeadlineExceeded]
    else if f.content.None? || f.content.value.malformedLines > 0 then [code]
    else []
  }

  ghost predicate Parses(c: Config, s: Scan, f: File) {
    !s.aborted && InTime(c, s.checks, s.checks + f.chunks + 1) && f.content.Some?
  }

  lemma ParseExactly(c: Config, s: Scan, f: File, key: CacheKey, code: Code)
    requires WithinBudget(c, s, f)
    ensures var (t, summary) := Parse(c, Charge(s, f.stat.size), f, key, code);
            && summary == (if Parses(c, s, f) then f.content else None)
            && t.outputCache == (if Parses(c, s, f) then s.outputCache[key := f.content.value] else s.outputCache)
            && t.stats == s.stats.(uncachedBytes := s.stats.uncachedBytes + f.stat.size,
                                   parsed := s.stats.parsed + if Parses(c, s, f) then 1 else 0)
            && t.diagnostics == s.diagnostics + Trouble(c, s, f, code)
            && (t.aborted <==> s.aborted || !InTime(c, s.checks, s.checks + f.chunks + 1))
            && t.graph == s.graph && t.sources == s.sources
  {
    var charged := Charge(s, f.stat.size);
    if s.aborted {
      assert ReadChunks(c, charged, f.chunks) == charged;
      assert s.diagnostics + [] == s.diagnostics;
    } else {
      ReadChunksExactly(c, charged, f.chunks);
      assert s.diagnostics + [] == s.diagnostics;
    }
    hide ReadChunks, InTime;
  }

  /**
   A transcript is read exactly when its valid cache entry is there or it fits the byte budget, is read in time and
   parses. Only then it enters the output cache; its bytes are charged once, and every failure has its own code.
   */
  lemma ReadExactly(w: World, c: Config, s: Scan, path: Path, id: Id, code: Code)
    requires path in w.files
    ensures var (t, summary) := ReadSummary(w, c, s, path, id, code);
            var f := w.files[path]; var key := CacheKey(id, f.stat); var hit := Cached(c, key);
            && (summary.Some? <==> CanRead(w, c, s, path, id))
            && (summary.Some? ==> summary == (if hit then c.cache[key] else f.content))
            && t.outputCache == (if summary.Some? then s.outputCache[key := summary.value] else s.outputCache)
            && t.stats == s.stats.(
                 hits := s.stats.hits + (if hit then 1 else 0),
                 parsed := s.stats.parsed + (if summary.Some? && !hit then 1 else 0),
                 uncachedBytes := s.stats.uncachedBytes
                   + (if hit || !WithinBudget(c, s, f) then 0 else f.stat.size))
            && t.diagnostics == s.diagnostics + (if hit || key !in c.cache then [] else [CacheInvalid])
                                + (if hit then [] else Trouble(c, s, f, code))
            && (t.aborted <==> s.aborted || Stops(c, s, f, key))
            && t.graph == s.graph && t.sources == s.sources
  {
    var f := w.files[path];
    var key := CacheKey(id, f.stat);
    var s1 := if key in c.cache then s.Diagnose(CacheInvalid) else s;
    assert s.diagnostics + [] == s.diagnostics;
    if !Cached(c, key) && WithinBudget(c, s, f) {
      ParseExactly(c, s1, f, key, code);
      assert Trouble(c, s1, f, code) == Trouble(c, s, f, code);
    }
    hide Parse, InTime;
  }
}
