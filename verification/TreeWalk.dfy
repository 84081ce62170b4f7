/** The bounded physical walk (hooks/git-snapshot.mjs): which entries it visits, fingerprints and counts. */
module TreeWalk {
  import opened Common
  import opened FlowSnapshot

  // An entry as lstat and realpath report it; a Redirected one is a directory or file that lives elsewhere.
  datatype Node =
    | Link(target: string)
    | Redirected(physical: string)
    | RegularFile(mode: nat, size: nat, links: nat, content: int)
    | Directory(mode: nat, children: seq<Child>)
    | Special(mode: nat, size: nat)

  datatype Child = Child(name: string, node: Node)

  datatype Print =
    | LinkPrint(target: string)
    | RedirectedPrint(physical: string)
    | FilePrint(mode: nat, size: nat, links: nat, content: int)
    | DirectoryPrint(mode: nat)
    | SpecialPrint(mode: nat, size: nat)

  datatype Config = Config(
    classify: Path -> bool, prefix: string, excludedNames: set<string>, excludedPaths: seq<string>,
    maxDepth: nat, maxEntries: nat)

  datatype Scan = Scan(fingerprints: map<Path, Print>, unsafePaths: set<Path>, entries: nat, deepest: nat)

  const NOTHING_SEEN := Scan(map[], {}, 0, 0)

  datatype Result = Ok(scan: Scan) | TooDeep(path: Path) | TooMany(path: Path)

  function Join(segs: seq<string>): string
    requires segs != []
  {
    if |segs| == 1 then segs[0] else Join(segs[..|segs| - 1]) + "/" + segs[|segs| - 1]
  }

  function GitPath(c: Config, rel: string): Path {
    if c.prefix != "" then c.prefix + "/" + rel else rel
  }

  predicate Excluded(c: Config, rel: string, name: string) {
    name in c.excludedNames
    || exists i :: 0 <= i < |c.excludedPaths| && (rel == c.excludedPaths[i] || c.excludedPaths[i] + "/" <= rel)
  }

  function PrintOf(n: Node): Print {
    match n
    case Link(target) => LinkPrint(target)
    case Redirected(physical) => RedirectedPrint(physical)
    case RegularFile(mode, size, links, content) => FilePrint(mode, size, links, content)
    case Directory(mode, _) => DirectoryPrint(mode)
    case Special(mode, size) => SpecialPrint(mode, size)
  }

  predicate IsUnsafe(n: Node) {
    n.Link? || n.Redirected? || n.Special? || (n.RegularFile? && n.links > 1)
  }

  // ---------- the order of visits ----------

  datatype Visit = Visit(segs: seq<string>, isProtected: bool, node: Node)

  function Visits(c: Config, children: seq<Child>, at: seq<string>, inherited: bool): seq<Visit>
    decreases children
  {
    if children == [] then [] else VisitsOf(c, children[0], at, inherited) + Visits(c, children[1..], at, inherited)
  }

  // The visit of a child, and of what lies below it where it is a real directory.
  function VisitsOf(c: Config, child: Child, at: seq<string>, inherited: bool): seq<Visit>
    decreases child
  {
    var segs := at + [child.name];
    if Excluded(c, Join(segs), child.name) then []
    else
      var prot := inherited || c.classify(GitPath(c, Join(segs)));
      [Visit(segs, prot, child.node)]
      + if child.node.Directory? then Visits(c, child.node.children, segs, prot) else []
  }

  function See(c: Config, s: Scan, v: Visit): Result
    requires v.segs != []
  {
    var path := GitPath(c, Join(v.segs));
    if |v.segs| > c.maxDepth then TooDeep(path)
    else if s.entries + 1 > c.maxEntries then TooMany(path)
    else
      Ok(Scan(if v.isProtected then s.fingerprints[path := PrintOf(v.node)] else s.fingerprints,
              if v.isProtected && IsUnsafe(v.node) then s.unsafePaths + {path} else s.unsafePaths,
              s.entries + 1, if |v.segs| > s.deepest then |v.segs| else s.deepest))
  }

  predicate Placed(visits: seq<Visit>) {
    forall v | v in visits :: v.segs != []
  }

  function SeeAll(c: Config, s: Scan, visits: seq<Visit>): Result
    requires Placed(visits)
    decreases visits
  {
    if visits == [] then Ok(s)
    else
      match See(c, s, visits[0])
      case Ok(next) => SeeAll(c, next, visits[1..])
      case error => error
  }

  lemma {:induction false} VisitsPlaced(c: Config, children: seq<Child>, at: seq<string>, inherited: bool)
    ensures Placed(Visits(c, children, at, inherited))
    decreases children
  {
    if children != [] {
      VisitPlaced(c, children[0], at, inherited);
      VisitsPlaced(c, children[1..], at, inherited);
    }
  }

  lemma {:induction false} VisitPlaced(c: Config, child: Child, at: seq<string>, inherited: bool)
    ensures Placed(VisitsOf(c, child, at, inherited))
    decreases child
  {
    var segs := at + [child.name];
    if child.node.Directory? {
      VisitsPlaced(c, child.node.children, segs, inherited || c.classify(GitPath(c, Join(segs))));
    }
  }

  lemma {:induction false} SeeAllSplit(c: Config, s: Scan, a: seq<Visit>, b: seq<Visit>)
    requires Placed(a) && Placed(b)
    ensures Placed(a + b)
    ensures SeeAll(c, s, a + b) == match SeeAll(c, s, a) case Ok(next) => SeeAll(c, next, b) case error => error
    decreases a
  {
    if a == [] {
      assert a + b == b;
    } else {
      assert (a + b)[0] == a[0] && (a + b)[1..] == a[1..] + b;
      match See(c, s, a[0])
      case Ok(next) => SeeAllSplit(c, next, a[1..], b);
      case _ =>
    }
  }

  // ---------- the walk ----------

  class TreeScan {
    const c: Config
    var fingerprints: map<Path, Print>
    var unsafePaths: set<Path>
    var entriesScanned: nat
    var maxDepthSeen: nat

    function State(): Scan
      reads this
    {
      Scan(fingerprints, unsafePaths, entriesScanned, maxDepthSeen)
    }

    constructor (config: Config)
      ensures State() == NOTHING_SEEN && c == config
    {
      c := config;
      fingerprints, unsafePaths, entriesScanned, maxDepthSeen := map[], {}, 0, 0;
    }

    method Record(path: Path, node: Node)
      modifies this`fingerprints, this`unsafePaths
      ensures fingerprints == old(fingerprints)[path := PrintOf(node)]
      ensures unsafePaths == if IsUnsafe(node) then old(unsafePaths) + {path} else old(unsafePaths)
    {
      fingerprints := fingerprints[path := PrintOf(node)];
      if IsUnsafe(node) {
        unsafePaths := unsafePaths + {path};
      }
    }

    /** Walks one directory; stops at the first limit. Links and redirected entries are never descended. */
    method Walk(children: seq<Child>, rel: string, depth: nat, inherited: bool, ghost at: seq<string>)
      returns (result: Result)
      requires Located(rel, depth, at) && WellFormed(children)
      modifies this`fingerprints, this`unsafePaths, this`entriesScanned, this`maxDepthSeen
      ensures Placed(Visits(c, children, at, inherited))
      ensures result == SeeAll(c, old(State()), Visits(c, children, at, inherited))
      ensures result.Ok? ==> result.scan == State()
      decreases children, 0
    {
      hide WellFormedNode;
      VisitsPlaced(c, children, at, inherited);
      var i := 0;
      assert children[0..] == children;
      while i < |children|
        invariant i <= |children|
        invariant Placed(Visits(c, children[i..], at, inherited))
        invariant SeeAll(c, State(), Visits(c, children[i..], at, inherited))
                  == SeeAll(c, old(State()), Visits(c, children, at, inherited))
      {
        ghost var before := State();
        var child := children[i];
        assert children[i..][1..] == children[i + 1..];
        VisitPlaced(c, child, at, inherited);
        VisitsPlaced(c, children[i + 1..], at, inherited);
        SeeAllSplit(c, before, VisitsOf(c, child, at, inherited), Visits(c, children[i + 1..], at, inherited));
        result := WalkEntry(child, rel, depth, inherited, at);
        if !result.Ok? {
          return;
        }
        i := i + 1;
      }
      result := Ok(State());
    }

    method WalkEntry(child: Child, rel: string, depth: nat, inherited: bool, ghost at: seq<string>)
      returns (result: Result)
      requires Located(rel, depth, at) && WellFormedNode(child)
      modifies this`fingerprints, this`unsafePaths, this`entriesScanned, this`maxDepthSeen
      ensures Placed(VisitsOf(c, child, at, inherited))
      ensures result == SeeAll(c, old(State()), VisitsOf(c, child, at, inherited))
      ensures result.Ok? ==> result.scan == State()
      decreases child, 1
    {
      hide Excluded, PrintOf, IsUnsafe, WellFormed, GitPath;
      VisitPlaced(c, child, at, inherited);
      var childRel := if rel == "" then child.name else rel + "/" + child.name;
      ghost var segs := at + [child.name];
      assert segs[..|segs| - 1] == at;
      assert childRel == Join(segs);
      if Excluded(c, childRel, child.name) {
        return Ok(State());
      }
      var path := GitPath(c, childRel);
      if depth + 1 > c.maxDepth {
        return TooDeep(path);
      }
      ghost var before := State();
      entriesScanned := entriesScanned + 1;
      if entriesScanned > c.maxEntries {
        return TooMany(path);
      }
      maxDepthSeen := if depth + 1 > maxDepthSeen then depth + 1 else maxDepthSeen;
      var isProtected := inherited || c.classify(path);
      if isProtected {
        Record(path, child.node);
      }
      ghost var visit := Visit(segs, isProtected, child.node);
      assert See(c, before, visit) == Ok(State());
      SeeFirst(c, before, visit, VisitsOf(c, child, at, inherited));
      assert VisitsOf(c, child, at, inherited)[1..]
             == if child.node.Directory? then Visits(c, child.node.children, segs, isProtected) else [];
      if child.node.Directory? {
        result := Walk(child.node.children, childRel, depth + 1, isProtected, segs);
      } else {
        result := Ok(State());
      }
    }
  }

  lemma SeeFirst(c: Config, s: Scan, v: Visit, visits: seq<Visit>)
    requires Placed(visits) && visits != [] && visits[0] == v && See(c, s, v).Ok?
    ensures SeeAll(c, s, visits) == SeeAll(c, See(c, s, v).scan, visits[1..])
  {
  }

  // ---------- well-formed trees ----------

  predicate Located(rel: string, depth: nat, at: seq<string>) {
    depth == |at| && rel == (if at == [] then "" else Join(at)) && (rel == "" <==> at == [])
  }

  predicate IsName(name: string) {
    name != "" && '/' !in name
  }

  // Names in a directory are distinct file names.
  predicate WellFormed(children: seq<Child>)
    decreases children
  {
    && (forall i, j | 0 <= i < j < |children| :: children[i].name != children[j].name)
    && (forall i | 0 <= i < |children| :: WellFormedNode(children[i]))
  }

  predicate WellFormedNode(child: Child)
    decreases child
  {
    IsName(child.name) && (child.node.Directory? ==> WellFormed(child.node.children))
  }

  // ---------- which entries are visited ----------

  function FindChild(children: seq<Child>, name: string): Option<Node> {
    if children == [] then None
    else if children[0].name == name then Some(children[0].node)
    else FindChild(children[1..], name)
  }

  // The entry at a path, following real directories only.
  function Resolve(children: seq<Child>, segs: seq<string>): Option<Node>
    requires segs != []
    decreases |segs|
  {
    var found := FindChild(children, segs[0]);
    if found.None? || |segs| == 1 then found
    else if found.value.Directory? then Resolve(found.value.children, segs[1..])
    else None
  }

  // No entry of the path is excluded.
  predicate Clear(c: Config, at: seq<string>, segs: seq<string>) {
    forall j | 0 < j <= |segs| :: !Excluded(c, Join(at + segs[..j]), segs[j - 1])
  }

  // Some entry of the path is protected itself.
  predicate Guarded(c: Config, at: seq<string>, segs: seq<string>) {
    exists j :: 0 < j <= |segs| && c.classify(GitPath(c, Join(at + segs[..j])))
  }

  lemma ClearStep(c: Config, at: seq<string>, segs: seq<string>)
    requires segs != []
    ensures Clear(c, at, segs)
            <==> !Excluded(c, Join(at + [segs[0]]), segs[0]) && Clear(c, at + [segs[0]], segs[1..])
    ensures Guarded(c, at, segs)
            <==> c.classify(GitPath(c, Join(at + [segs[0]]))) || Guarded(c, at + [segs[0]], segs[1..])
  {
    hide Excluded, GitPath, Join;
    assert segs[..1] == [segs[0]];
    forall j | 0 < j < |segs|
      ensures at + segs[..j + 1] == (at + [segs[0]]) + segs[1..][..j] && segs[j] == segs[1..][j - 1]
    {
    }
    if Clear(c, at, segs) {
      forall j | 0 < j <= |segs[1..]|
        ensures !Excluded(c, Join((at + [segs[0]]) + segs[1..][..j]), segs[1..][j - 1])
      {
        assert !Excluded(c, Join(at + segs[..j + 1]), segs[j + 1 - 1]);
      }
    }
    if !Excluded(c, Join(at + [segs[0]]), segs[0]) && Clear(c, at + [segs[0]], segs[1..]) {
      forall j | 0 < j <= |segs| ensures !Excluded(c, Join(at + segs[..j]), segs[j - 1]) {
        if j > 1 {
          assert !Excluded(c, Join((at + [segs[0]]) + segs[1..][..j - 1]), segs[1..][j - 1 - 1]);
        }
      }
    }
    GuardedStep(c, at, segs);
  }

  lemma GuardedStep(c: Config, at: seq<string>, segs: seq<string>)
    requires segs != []
    ensures Guarded(c, at, segs)
            <==> c.classify(GitPath(c, Join(at + [segs[0]]))) || Guarded(c, at + [segs[0]], segs[1..])
  {
    hide GitPath, Join;
    assert segs[..1] == [segs[0]];
    if Guarded(c, at, segs) {
      var j :| 0 < j <= |segs| && c.classify(GitPath(c, Join(at + segs[..j])));
      if j > 1 {
        assert at + segs[..j] == (at + [segs[0]]) + segs[1..][..j - 1];
      }
    }
    if c.classify(GitPath(c, Join(at + [segs[0]]))) {
      assert c.classify(GitPath(c, Join(at + segs[..1])));
    } else if Guarded(c, at + [segs[0]], segs[1..]) {
      var j :| 0 < j <= |segs[1..]| && c.classify(GitPath(c, Join((at + [segs[0]]) + segs[1..][..j])));
      assert at + segs[..j + 1] == (at + [segs[0]]) + segs[1..][..j];
    }
  }

  ghost predicate IsVisit(c: Config, children: seq<Child>, at: seq<string>, inherited: bool, segs: seq<string>,
      v: Visit)
    requires segs != []
  {
    && v.segs == at + segs && Resolve(children, segs) == Some(v.node) && Clear(c, at, segs)
    && v.isProtected == (inherited || Guarded(c, at, segs))
  }

  /** A visit is listed exactly when its path resolves through real, not excluded directories. */
  lemma {:induction false} VisitsExactly(c: Config, children: seq<Child>, at: seq<string>, inherited: bool,
                                         segs: seq<string>, v: Visit)
    requires WellFormed(children) && segs != [] && v.segs == at + segs
    ensures v in Visits(c, children, at, inherited) <==> IsVisit(c, children, at, inherited, segs, v)
    decreases children
  {
    if children != [] {
      var child := children[0];
      hide Excluded, GitPath, Guarded, Clear;
      if child.name == segs[0] {
        VisitsBelow(c, child, at, inherited, segs, v);
        OthersElsewhere(c, children[1..], at, inherited, segs, v);
      } else {
        OtherChild(c, child, at, inherited, segs, v);
        VisitsExactly(c, children[1..], at, inherited, segs, v);
        assert Resolve(children, segs) == Resolve(children[1..], segs);
      }
    }
  }

  lemma {:induction false} VisitsBelow(c: Config, child: Child, at: seq<string>, inherited: bool, segs: seq<string>,
      v: Visit)
    requires WellFormedNode(child) && segs != [] && v.segs == at + segs && child.name == segs[0]
    ensures v in VisitsOf(c, child, at, inherited)
            <==> && (if |segs| == 1 then Some(child.node)
                     else if child.node.Directory? then Resolve(child.node.children, segs[1..]) else None)
                         == Some(v.node)
                 && Clear(c, at, segs) && v.isProtected == (inherited || Guarded(c, at, segs))
    decreases child
  {
    hide Excluded, GitPath, WellFormed;
    var here := at + [child.name];
    var prot := inherited || c.classify(GitPath(c, Join(here)));
    ClearStep(c, at, segs);
    if |segs| == 1 {
      assert segs == [segs[0]] && v.segs == here;
      if child.node.Directory? {
        VisitsDeeper(c, child.node.children, here, prot, v);
      }
    } else {
      assert v.segs == here + segs[1..];
      assert v.segs != here;
      if child.node.Directory? {
        VisitsExactly(c, child.node.children, here, prot, segs[1..], v);
      }
    }
  }

  // What is visited inside a directory has a longer path that goes on from it.
  lemma {:induction false} VisitsDeeper(c: Config, children: seq<Child>, at: seq<string>, inherited: bool, v: Visit)
    ensures v in Visits(c, children, at, inherited) ==> |v.segs| > |at| && v.segs[..|at|] == at
                                                        && exists i :: 0 <= i < |children|
                                                            && v.segs[|at|] == children[i].name
    decreases children
  {
    if children != [] && v in Visits(c, children, at, inherited) {
      if v in VisitsOf(c, children[0], at, inherited) {
        VisitDeeper(c, children[0], at, inherited, v);
      } else {
        VisitsDeeper(c, children[1..], at, inherited, v);
        var i :| 0 <= i < |children[1..]| && v.segs[|at|] == children[1..][i].name;
        assert children[i + 1].name == v.segs[|at|];
      }
    }
  }

  lemma {:induction false} VisitDeeper(c: Config, child: Child, at: seq<string>, inherited: bool, v: Visit)
    ensures v in VisitsOf(c, child, at, inherited) ==>
              |v.segs| > |at| && v.segs[..|at|] == at && v.segs[|at|] == child.name
    decreases child
  {
    hide Excluded, GitPath;
    var here := at + [child.name];
    if v in VisitsOf(c, child, at, inherited) && v.segs != here {
      VisitsDeeper(c, child.node.children, here, inherited || c.classify(GitPath(c, Join(here))), v);
      assert v.segs[..|at|] == v.segs[..|here|][..|at|];
      assert v.segs[|at|] == v.segs[..|here|][|at|];
    }
  }

  lemma OtherChild(c: Config, child: Child, at: seq<string>, inherited: bool, segs: seq<string>, v: Visit)
    requires segs != [] && v.segs == at + segs && child.name != segs[0]
    ensures v !in VisitsOf(c, child, at, inherited)
  {
    VisitDeeper(c, child, at, inherited, v);
  }

  lemma OthersElsewhere(c: Config, children: seq<Child>, at: seq<string>, inherited: bool, segs: seq<string>, v: Visit)
    requires segs != [] && v.segs == at + segs && forall i | 0 <= i < |children| :: children[i].name != segs[0]
    ensures v !in Visits(c, children, at, inherited)
  {
    VisitsDeeper(c, children, at, inherited, v);
  }
}
