/** Edge keys are joined from untrusted ids: exactly which parents can share a key for different children. */
module GraphKeys {
  import opened Common
  import opened Transcript
  import opened GraphModel
  import opened GraphSteps
  import opened GraphInvariant
  import opened GraphLoop

  // The second parent goes on after the first as a key would.
  predicate Clash(p: Id, q: Id) {
    p + EDGE_MARK <= q + "\0"
  }

  function Key(parent: Id, child: Id): string {
    EdgeKey(Edge(parent, child, Started, false, ""))
  }

  /**
   Two parents share a key for some two different children exactly when one goes on after the other as a key would.
   */
  lemma SharedKeyExactly(p: Id, q: Id)
    ensures (exists a, b :: a != b && Key(p, a) == Key(q, b)) <==> Clash(p, q) || Clash(q, p)
  {
    if a, b :| a != b && Key(p, a) == Key(q, b) {
      SharedKeyClashes(p, a, q, b);
    }
    if Clash(p, q) {
      ClashShares(p, q, "");
    }
    if Clash(q, p) {
      ClashShares(q, p, "");
    }
  }

  lemma SharedKeyClashes(p: Id, a: Id, q: Id, b: Id)
    requires a != b && Key(p, a) == Key(q, b)
    ensures Clash(p, q) || Clash(q, p)
  {
    if |p| < |q| {
      LongerClashes(p, a, q, b);
    } else if |q| < |p| {
      LongerClashes(q, b, p, a);
    } else {
      KeyParts(p, a);
      KeyParts(q, b);
    }
  }

  lemma KeyParts(p: Id, a: Id)
    ensures var k := Key(p, a);
            |k| == |p| + 9 + |a| && k[..|p|] == p && k[|p| + 9..] == a && k[|p|..|p| + 9] == EDGE_MARK
    ensures forall i | 0 <= i < 9 :: Key(p, a)[|p| + i] == EDGE_MARK[i]
  {
    assert |EDGE_MARK| == 9;
  }

  lemma LongerClashes(p: Id, a: Id, q: Id, b: Id)
    requires |p| < |q| && Key(p, a) == Key(q, b)
    ensures Clash(p, q)
  {
    MarksApart(p, a, q, b);
    KeyParts(p, a);
    KeyParts(q, b);
    hide Key;
    var k := Key(p, a);
    assert k[|q| + 0] == '\0';
    assert q + "\0" == k[..|q| + 1];
    assert p + EDGE_MARK == k[..|p| + 9];
  }

  // The mark has a NUL at its ends only, so two marks overlap in at most one character.
  lemma MarksApart(p: Id, a: Id, q: Id, b: Id)
    requires |p| < |q| && Key(p, a) == Key(q, b)
    ensures |q| - |p| >= 8
  {
    KeyParts(p, a);
    KeyParts(q, b);
    var k := Key(p, a);
    hide Key;
    assert k[|q| + 0] == EDGE_MARK[0] == '\0';
    forall j | |p| < j < |p| + 8 ensures k[j] != '\0' {
      MarkInside(j - |p|);
      assert k[|p| + (j - |p|)] == EDGE_MARK[j - |p|];
    }
  }

  lemma MarkInside(i: nat)
    requires 0 < i < 8
    ensures EDGE_MARK[i] != '\0'
  {
  }

  // The child that takes the key of (q, b) under the parent p.
  function Twin(p: Id, q: Id, b: Id): Id
    requires Clash(p, q)
  {
    (q + EDGE_MARK + b)[|p| + |EDGE_MARK|..]
  }

  lemma ClashShares(p: Id, q: Id, b: Id)
    requires Clash(p, q)
    ensures Key(p, Twin(p, q, b)) == Key(q, b) && |Twin(p, q, b)| == |q| - |p| + |b| && |q| >= |p| + 8
  {
    var k := q + EDGE_MARK + b;
    assert |EDGE_MARK| == 9 && EDGE_MARK[0] == '\0';
    assert q + "\0" == k[..|q| + 1];
    assert p + EDGE_MARK == k[..|p| + 9];
    assert k == k[..|p| + 9] + k[|p| + 9..];
  }

  // ---------- the parents a scan can meet ----------

  predicate IsStart(e: Edge) {
    e.kind == Started && e.child != ""
  }

  ghost function Parents(w: World, c: Config): set<Id> {
    (set p, e | p in w.files && w.files[p].content.Some? && e in w.files[p].content.value.edges && IsStart(e) ::
        e.parent)
    + (set k, e | k in c.cache && c.cache[k].Some? && e in c.cache[k].value.edges && IsStart(e) :: e.parent)
    + (set e | e in w.signals && IsStart(e) :: e.parent)
  }

  // No two parents can share a key for different children.
  ghost predicate Apart(w: World, c: Config) {
    forall p, q | p in Parents(w, c) && q in Parents(w, c) :: !Clash(p, q)
  }

  /** Ids without NUL are always apart. */
  lemma NulFreeApart(w: World, c: Config)
    requires forall p | p in Parents(w, c) :: '\0' !in p
    ensures Apart(w, c)
  {
    hide Parents;
    forall p, q | p in Parents(w, c) && q in Parents(w, c) ensures !Clash(p, q) {
      if Clash(p, q) {
        ClashHasNul(p, q);
      }
    }
  }

  lemma ClashHasNul(p: Id, q: Id)
    requires Clash(p, q)
    ensures '\0' in q
  {
    ClashShares(p, q, "");
    assert (p + EDGE_MARK)[|p|] == '\0';
    assert (q + "\0")[|p|] == q[|p|];
  }

  // Equal keys of started edges mean equal children.
  ghost predicate KeysDecide(w: World, g: Graph) {
    forall e, f | Met(w, g, e) && Met(w, g, f) && IsStart(e) && IsStart(f) && EdgeKey(e) == EdgeKey(f) ::
        e.child == f.child
  }

  lemma MetParent(w: World, c: Config, g: Graph, e: Edge)
    requires Forest(w, c, g) && Met(w, g, e) && IsStart(e)
    ensures e.parent in Parents(w, c)
  {
    hide Parents;
    if e in w.signals {
      SignalParent(w, c, e);
    } else if r :| r in g.roots && r.summary.Some? && e in r.summary.value.edges {
      assert RootOk(w, c, r);
      ReadParent(w, c, r.path, r.id, r.summary.value, e);
    } else {
      var a :| a in g.agents && e in a.summary.edges;
      var i :| 0 <= i < |g.agents| && g.agents[i] == a;
      assert AgentOk(w, c, g, i);
      ReadParent(w, c, a.path, a.id, a.summary, e);
    }
  }

  lemma SignalParent(w: World, c: Config, e: Edge)
    requires e in w.signals && IsStart(e)
    ensures e.parent in Parents(w, c)
  {
  }

  lemma ReadParent(w: World, c: Config, path: Path, id: Id, summary: Summary, e: Edge)
    requires ReadFrom(w, c, path, id, summary) && e in summary.edges && IsStart(e)
    ensures e.parent in Parents(w, c)
  {
    var key := CacheKey(id, w.files[path].stat);
    assert Hit(c, key).Some? ==> c.cache[key].Some? && c.cache[key].value == summary;
  }

  lemma ApartDecides(w: World, c: Config, g: Graph)
    requires Apart(w, c) && Forest(w, c, g)
    ensures KeysDecide(w, g)
  {
    hide Forest, Parents, Clash, EdgeKey, Met;
    forall e, f | Met(w, g, e) && Met(w, g, f) && IsStart(e) && IsStart(f) && EdgeKey(e) == EdgeKey(f)
      ensures e.child == f.child
    {
      MetParent(w, c, g, e);
      MetParent(w, c, g, f);
      if e.child != f.child {
        KeyOf(e);
        KeyOf(f);
        SharedKeyClashes(e.parent, e.child, f.parent, f.child);
      }
    }
  }

  lemma KeyOf(e: Edge)
    ensures EdgeKey(e) == Key(e.parent, e.child)
  {
  }
}
