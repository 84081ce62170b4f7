/** The promotion as one process runs it: checks, reservation and durable writes on the vault, in their order. */
module FlowVault {
  import opened Common
  import opened FlowSnapshot
  import opened FlowStore
  import opened FlowPromotion
  import opened FlowPromotionInv
  import opened FlowPromotionRuns

  // ---------- what a stretch of undisturbed steps amounts to ----------

  lemma DriveAct(pol: Policy, g: World, p: nat, a: Answers)
    requires p in g.procs
    ensures Drive(pol, g, p, a) == Drive(pol, Act(pol, g, p, a), p, a)
    ensures Drive(pol, Release(g, p), p, a) == Release(g, p)
  {
    ActProgress(pol, g, p, a);
  }

  // Where a process stands, and what it may have changed by then.
  datatype Position = Position(dir: Dir, stage: Stage, first: bool, pointer: string, slugs: map<string, string>)

  // The change of the process is reserved with this origin.
  predicate Holder(g: World, p: nat, o: Origin) {
    && p in g.procs && g.procs[p].key in g.flows && g.flows[g.procs[p].key].reservation.Some?
    && g.flows[g.procs[p].key].reservation.value.origin == o
  }

  function Placed(pol: Policy, g: World, p: nat, x: Position): World
    requires p in g.procs
  {
    World(g.flows, g.dirs[pol.RelOf(g.procs[p].slug) := x.dir], g.locks,
          g.procs[p := g.procs[p].(stage := x.stage, first := x.first)], x.pointer, x.slugs)
  }

  function Onward(proc: Process, x: Position, o: Origin): Option<Position>
    requires 3 <= Order(x.stage) <= 14 && TempReady(x.dir, x.stage)
  {
    match Advance(x.dir, x.stage, x.first, o)
    case None => None
    case Some((d, s, first)) =>
      Some(Position(d, s, first, if x.stage == Pointing then proc.slug else x.pointer,
                    if x.stage == Registering then x.slugs[proc.key.session := proc.slug] else x.slugs))
  }

  lemma PlacedActs(pol: Policy, g: World, p: nat, a: Answers, x: Position, o: Origin)
    requires Holder(g, p, o) && 3 <= Order(x.stage) <= 14 && TempReady(x.dir, x.stage)
    ensures var here := Placed(pol, g, p, x); var n := Onward(g.procs[p], x, o);
            && p in here.procs
            && Act(pol, here, p, a) == if n.Some? then Placed(pol, g, p, n.value) else Release(here, p)
  {
    hide *;
    PlacedIs(pol, g, p, x, o);
    ActAdvances(pol, Placed(pol, g, p, x), p, a, o);
    AdvancesTo(pol, g, p, x, o);
  }

  lemma PlacedIs(pol: Policy, g: World, p: nat, x: Position, o: Origin)
    requires Holder(g, p, o)
    ensures p in g.procs
    ensures var here := Placed(pol, g, p, x); Holder(here, p, o) && here.procs[p].stage == x.stage
                                               && here.procs[p].slug == g.procs[p].slug
  {
  }

  lemma ActAdvances(pol: Policy, g: World, p: nat, a: Answers, o: Origin)
    requires Holder(g, p, o) && 3 <= Order(g.procs[p].stage) <= 14
    ensures Act(pol, g, p, a) == ActAdvance(g, p, pol.RelOf(g.procs[p].slug), o)
  {
    hide ActAdvance, ActSettle, ActReserve, ActMakeDir, Inspect, Release;
  }

  lemma AdvancesTo(pol: Policy, g: World, p: nat, x: Position, o: Origin)
    requires Holder(g, p, o) && 3 <= Order(x.stage) <= 14 && TempReady(x.dir, x.stage)
    ensures var here := Placed(pol, g, p, x); var n := Onward(g.procs[p], x, o);
            && p in here.procs && here.procs[p].stage == x.stage
            && ActAdvance(here, p, pol.RelOf(g.procs[p].slug), o)
               == if n.Some? then Placed(pol, g, p, n.value) else Release(here, p)
  {
    hide Advance, TempReady, Release, Order;
    var rel, here := pol.RelOf(g.procs[p].slug), Placed(pol, g, p, x);
    assert here.dirs[rel] == x.dir && here.procs[p].first == x.first;
    if Onward(g.procs[p], x, o).Some? {
      var n := Onward(g.procs[p], x, o).value;
      var q := here.procs[p].(stage := n.stage, first := n.first);
      assert here.procs[p := q] == g.procs[p := q];
      assert here.dirs[rel := n.dir] == g.dirs[rel := n.dir];
    }
  }

  /** One undisturbed step from one position to the next. */
  lemma {:induction false} Go(pol: Policy, g: World, p: nat, a: Answers, x: Position, o: Origin)
    requires Holder(g, p, o) && 3 <= Order(x.stage) <= 14 && TempReady(x.dir, x.stage)
    ensures var n := Onward(g.procs[p], x, o);
            Drive(pol, Placed(pol, g, p, x), p, a)
            == if n.Some? then Drive(pol, Placed(pol, g, p, n.value), p, a) else Release(Placed(pol, g, p, x), p)
  {
    PlacedActs(pol, g, p, a, x, o);
    hide Onward, Act, TempReady;
    DriveAct(pol, Placed(pol, g, p, x), p, a);
  }

  lemma {:induction false} DriveOrigin(pol: Policy, g: World, p: nat, a: Answers, x: Position, o: Origin)
    requires Holder(g, p, o) && x.stage == OriginTemp
    ensures Drive(pol, Placed(pol, g, p, x), p, a)
            == if x.dir.origin.None? || x.dir.origin.value == o then
                 Drive(pol, Placed(pol, g, p, x.(stage := Proposing, dir := x.dir.(origin := Some(o)))), p, a)
               else Release(Placed(pol, g, p, x), p)
  {
    hide Drive, Placed, Release;
    var proc := g.procs[p];
    hide Holder;
    Go(pol, g, p, a, x, o);
    if x.dir.origin.None? {
      var y := Onward(proc, x, o).value;
      Go(pol, g, p, a, y, o);
      assert Onward(proc, y, o) == Some(x.(stage := Proposing, dir := x.dir.(origin := Some(o))));
    } else if x.dir.origin.value == o {
      assert x.dir.(origin := Some(o)) == x.dir;
    }
  }

  // The scaffold of a change: what is missing, and the two markers of a first writing.
  function Scaffolded(d: Dir): Dir {
    var first := Proposal !in d.files;
    d.(files := d.files + {Proposal, TaskList, Design} + if first then {SpecImpact, SpecBase} else {})
  }

  lemma {:induction false} DriveScaffold(pol: Policy, g: World, p: nat, a: Answers, x: Position, o: Origin)
    requires Holder(g, p, o) && x.stage == Proposing
    ensures Drive(pol, Placed(pol, g, p, x), p, a)
            == Drive(pol, Placed(pol, g, p, Position(Scaffolded(x.dir), EnrichTemp, Proposal !in x.dir.files,
                                                     g.procs[p].slug, x.slugs)), p, a)
  {
    hide Drive, Placed, Release;
    var proc := g.procs[p];
    hide Holder;
    var first := Proposal !in x.dir.files;
    var x1 := Onward(proc, x, o).value;
    var x2 := Onward(proc, x1, o).value;
    var x3 := Onward(proc, x2, o).value;
    var x4 := Onward(proc, x3, o).value;
    Go(pol, g, p, a, x, o);
    Go(pol, g, p, a, x1, o);
    Go(pol, g, p, a, x2, o);
    Go(pol, g, p, a, x3, o);
    assert x4.stage == BaseTemp && x4.first == first && x4.pointer == x.pointer && x4.slugs == x.slugs;
    assert x4.dir == x.dir.(files := x.dir.files + {Proposal, TaskList, Design} + if first then {SpecImpact} else {});
    DriveBase(pol, g, p, a, x4, o);
    assert Based(x4.dir, first) == Scaffolded(x.dir);
  }

  function Based(d: Dir, first: bool): Dir {
    if first then Put(d, SpecBase) else d
  }

  lemma {:induction false} DriveBase(pol: Policy, g: World, p: nat, a: Answers, x: Position, o: Origin)
    requires Holder(g, p, o) && x.stage == BaseTemp
    ensures Drive(pol, Placed(pol, g, p, x), p, a)
            == Drive(pol, Placed(pol, g, p, x.(dir := Based(x.dir, x.first), stage := EnrichTemp,
                                               pointer := g.procs[p].slug)), p, a)
  {
    hide Drive, Placed, Release;
    var proc := g.procs[p];
    hide Holder;
    var y := Onward(proc, x, o).value;
    Go(pol, g, p, a, x, o);
    if y.stage == BaseSave {
      Go(pol, g, p, a, y, o);
      y := Onward(proc, y, o).value;
    }
    assert Based(x.dir, x.first).files == y.dir.files;
    assert y == x.(dir := Based(x.dir, x.first), stage := Pointing);
    Go(pol, g, p, a, y, o);
  }

  lemma {:induction false} DriveEnrich(pol: Policy, g: World, p: nat, a: Answers, x: Position, o: Origin)
    requires Holder(g, p, o) && x.stage == EnrichTemp
    ensures Drive(pol, Placed(pol, g, p, x), p, a)
            == Drive(pol, Placed(pol, g, p, x.(dir := x.dir.(enriched := true), stage := Settling,
                                               slugs := x.slugs[g.procs[p].key.session := g.procs[p].slug])), p, a)
  {
    hide Drive, Placed, Release;
    var proc := g.procs[p];
    hide Holder;
    var y := Onward(proc, x, o).value;
    Go(pol, g, p, a, x, o);
    if y.stage == EnrichSave {
      Go(pol, g, p, a, y, o);
      y := Onward(proc, y, o).value;
    }
    assert y == x.(dir := x.dir.(enriched := true), stage := Registering);
    Go(pol, g, p, a, y, o);
  }

  // The origin that is there, if any, is the reserved one.
  predicate Welcome(d: Dir, o: Origin) {
    d.origin.None? || d.origin.value == o
  }

  // The directory of a change once everything is written.
  function WrittenDir(d: Dir, o: Origin): Dir {
    Scaffolded(d.(origin := Some(o))).(enriched := true)
  }

  function WrittenPosition(proc: Process, d: Dir, o: Origin, slugs: map<string, string>): Position {
    Position(WrittenDir(d, o), Settling, Proposal !in d.files, proc.slug, slugs[proc.key.session := proc.slug])
  }

  function WrittenWorld(pol: Policy, g: World, p: nat, o: Origin): World
    requires p in g.procs && pol.RelOf(g.procs[p].slug) in g.dirs
  {
    Placed(pol, g, p, WrittenPosition(g.procs[p], g.dirs[pol.RelOf(g.procs[p].slug)], o, g.sessionSlugs))
  }

  /** All undisturbed writes, from the directory to the session registry. */
  lemma {:induction false} DriveWrites(pol: Policy, g: World, p: nat, a: Answers, o: Origin)
    requires Holder(g, p, o) && g.procs[p].stage == OriginTemp && pol.RelOf(g.procs[p].slug) in g.dirs
    ensures Drive(pol, g, p, a)
            == if Welcome(g.dirs[pol.RelOf(g.procs[p].slug)], o) then Drive(pol, WrittenWorld(pol, g, p, o), p, a)
               else Release(g, p)
  {
    hide Drive, Scaffolded;
    var proc := g.procs[p];
    var d := g.dirs[pol.RelOf(proc.slug)];
    var x := Position(d, OriginTemp, proc.first, g.pointer, g.sessionSlugs);
    assert Placed(pol, g, p, x) == g;
    hide Placed, Release, Holder;
    DriveOrigin(pol, g, p, a, x, o);
    if Welcome(d, o) {
      var y := x.(stage := Proposing, dir := d.(origin := Some(o)));
      DriveScaffold(pol, g, p, a, y, o);
      DriveEnrich(pol, g, p, a, Position(Scaffolded(y.dir), EnrichTemp, Proposal !in d.files, proc.slug, y.slugs), o);
    }
  }

  lemma MakeDirDrives(pol: Policy, g: World, p: nat, a: Answers)
    requires p in g.procs && g.procs[p].stage == MakingDir && g.procs[p].key in g.flows
    requires g.flows[g.procs[p].key].reservation.Some?
    ensures var made := ActMakeDir(g, p, pol.RelOf(g.procs[p].slug));
            && Drive(pol, g, p, a) == Drive(pol, made, p, a)
            && Holder(made, p, g.flows[g.procs[p].key].reservation.value.origin)
            && made.procs[p].stage == OriginTemp && pol.RelOf(made.procs[p].slug) in made.dirs
  {
    DriveAct(pol, g, p, a);
    hide Drive;
  }

  lemma SettleDrives(pol: Policy, g: World, p: nat, a: Answers, r: Reservation)
    requires p in g.procs && g.procs[p].stage == Settling && g.procs[p].key in g.flows
    requires g.flows[g.procs[p].key].reservation == Some(r)
    ensures Drive(pol, g, p, a) == ActSettle(pol, g, p, r, a)
  {
    DriveAct(pol, g, p, a);
    SettleProgress(pol, g, p, r, a);
  }

  function Accepted(o: Outcome, st: Store): Store {
    match o
    case Done(next) => next
    case Thrown(_) => st
  }

  lemma SettleFields(pol: Policy, g: World, p: nat, r: Reservation, a: Answers)
    requires p in g.procs
    ensures var proc, after := g.procs[p], ActSettle(pol, g, p, r, a);
            && after.procs == g.procs - {p} && after.locks == g.locks - {proc.slug} && after.dirs == g.dirs
            && after.pointer == g.pointer && after.sessionSlugs == g.sessionSlugs
            && after.flows == if TerminalQuiet(proc, a)
                              then Accepted(Apply(pol, g.flows,
                                  WritePromotion(proc.key, PromotionFrom(proc.key, r, r.origin))), g.flows)
                              else g.flows
  {
    hide TerminalQuiet, Apply, PromotionFrom;
  }

  lemma WrittenFields(pol: Policy, g: World, p: nat, o: Origin)
    requires p in g.procs && pol.RelOf(g.procs[p].slug) in g.dirs
    ensures var proc := g.procs[p]; var rel := pol.RelOf(proc.slug); var after := WrittenWorld(pol, g, p, o);
            && after.flows == g.flows && after.locks == g.locks && after.dirs
                == g.dirs[rel := WrittenDir(g.dirs[rel], o)]
            && after.pointer == proc.slug && after.sessionSlugs == g.sessionSlugs[proc.key.session := proc.slug]
            && p in after.procs && after.procs - {p} == g.procs - {p} && after.procs[p].stage == Settling
            && after.procs[p].key == proc.key && after.procs[p].slug == proc.slug
                && after.procs[p].current == proc.current
  {
    hide WrittenDir;
  }

  lemma MadeFields(g: World, p: nat, rel: string)
    requires p in g.procs
    ensures var proc, made := g.procs[p], ActMakeDir(g, p, rel);
            && made.flows == g.flows && made.locks == g.locks && made.pointer == g.pointer
            && made.sessionSlugs == g.sessionSlugs && p in made.procs && made.procs - {p} == g.procs - {p}
            && made.procs[p] == proc.(stage := OriginTemp)
            && made.dirs == g.dirs[rel := if rel in g.dirs then g.dirs[rel] else BARE]
  {
  }

  // What an undisturbed process leaves behind from the directory on, field by field.
  ghost predicate Completed(pol: Policy, g: World, p: nat, a: Answers, r: Reservation, after: World)
    requires p in g.procs
  {
    var proc := g.procs[p];
    var rel := pol.RelOf(proc.slug);
    var d := if rel in g.dirs then g.dirs[rel] else BARE;
    var ok := Welcome(d, r.origin);
    && after.procs == g.procs - {p} && after.locks == g.locks - {proc.slug}
    && after.dirs == g.dirs[rel := if ok then WrittenDir(d, r.origin) else d]
    && after.pointer == (if ok then proc.slug else g.pointer)
    && after.sessionSlugs == (if ok then g.sessionSlugs[proc.key.session := proc.slug] else g.sessionSlugs)
    && after.flows == if ok && TerminalQuiet(proc, a)
                      then Accepted(Apply(pol, g.flows,
                          WritePromotion(proc.key, PromotionFrom(proc.key, r, r.origin))), g.flows)
                      else g.flows
  }

  lemma DriveCompleted(pol: Policy, g: World, p: nat, a: Answers)
    requires p in g.procs && g.procs[p].stage == MakingDir && g.procs[p].key in g.flows
    requires g.flows[g.procs[p].key].reservation.Some?
    ensures Completed(pol, g, p, a, g.flows[g.procs[p].key].reservation.value, Drive(pol, g, p, a))
  {
    hide Drive, Welcome, WrittenWorld, ActSettle, ActMakeDir, Completed, Holder;
    var proc := g.procs[p];
    var rel, r := pol.RelOf(proc.slug), g.flows[proc.key].reservation.value;
    MakeDirDrives(pol, g, p, a);
    MadeFields(g, p, rel);
    var made := ActMakeDir(g, p, rel);
    DriveWrites(pol, made, p, a, r.origin);
    if Welcome(made.dirs[rel], r.origin) {
      var written := WrittenWorld(pol, made, p, r.origin);
      WrittenFields(pol, made, p, r.origin);
      SettleDrives(pol, written, p, a, r);
      SettledIsCompleted(pol, g, p, a, r);
    } else {
      RefusedIsCompleted(pol, g, p, a, r);
    }
  }

  lemma RefusedIsCompleted(pol: Policy, g: World, p: nat, a: Answers, r: Reservation)
    requires p in g.procs
    requires var rel := pol.RelOf(g.procs[p].slug); !Welcome(ActMakeDir(g, p, rel).dirs[rel], r.origin)
    ensures Completed(pol, g, p, a, r, Release(ActMakeDir(g, p, pol.RelOf(g.procs[p].slug)), p))
  {
    hide Welcome, ActMakeDir, WrittenDir, TerminalQuiet, Apply, PromotionFrom, Accepted;
    MadeFields(g, p, pol.RelOf(g.procs[p].slug));
  }

  lemma SettledIsCompleted(pol: Policy, g: World, p: nat, a: Answers, r: Reservation)
    requires p in g.procs
    requires var made := ActMakeDir(g, p, pol.RelOf(g.procs[p].slug)); var rel := pol.RelOf(g.procs[p].slug);
             p in made.procs && made.procs[p].slug == g.procs[p].slug && Welcome(made.dirs[rel], r.origin)
             && p in WrittenWorld(pol, made, p, r.origin).procs
    ensures var made := ActMakeDir(g, p, pol.RelOf(g.procs[p].slug));
            Completed(pol, g, p, a, r, ActSettle(pol, WrittenWorld(pol, made, p, r.origin), p, r, a))
  {
    hide Welcome, ActMakeDir, WrittenDir, TerminalQuiet, Apply, PromotionFrom, Accepted, WrittenWorld, ActSettle;
    MadeFields(g, p, pol.RelOf(g.procs[p].slug));
    var made := ActMakeDir(g, p, pol.RelOf(g.procs[p].slug));
    var written := WrittenWorld(pol, made, p, r.origin);
    WrittenFields(pol, made, p, r.origin);
    SettleFields(pol, written, p, r, a);
    SameQuiet(g.procs[p], written.procs[p], a);
  }

  lemma SameQuiet(proc: Process, next: Process, a: Answers)
    requires next.current == proc.current
    ensures TerminalQuiet(next, a) == TerminalQuiet(proc, a)
  {
  }

  lemma CompletedUnique(pol: Policy, g: World, p: nat, a: Answers, r: Reservation, x: World, y: World)
    requires p in g.procs && Completed(pol, g, p, a, r, x) && Completed(pol, g, p, a, r, y)
    ensures x == y
  {
    hide Welcome, WrittenDir, TerminalQuiet, Apply, PromotionFrom;
  }

  // What is written atomically: the origin, the baseline of the specifications, the enriched proposal.
  datatype Write = WriteOrigin(o: Origin) | WriteBase | WriteEnriched

  function WithWrite(d: Dir, write: Write): Dir {
    match write
    case WriteOrigin(o) => d.(origin := Some(o))
    case WriteBase => Put(d, SpecBase)
    case WriteEnriched => d.(enriched := true)
  }

  class Vault {
    const pol: Policy
    const files: FlowFiles
    var dirs: map<string, Dir>
    var locks: map<string, nat>
    var pointer: string
    var sessionSlugs: map<string, string>
    ghost const others: map<nat, Process>

    constructor (policy: Policy)
      ensures State() == NEW_WORLD && pol == policy && Valid() && fresh(files)
    {
      pol := policy;
      files := new FlowFiles(policy);
      dirs, locks, pointer, sessionSlugs := map[], map[], "", map[];
      others := map[];
    }

    ghost predicate Valid() {
      files.pol == pol
    }

    ghost function State(): World
      reads this, files
    {
      World(files.flows, dirs, locks, others, pointer, sessionSlugs)
    }

    // The world in which this process stands where it stands now.
    ghost function At(p: nat, proc: Process): World
      reads this, files
    {
      World(files.flows, dirs, locks, others[p := proc], pointer, sessionSlugs)
    }

    method OriginAcceptable(d: Dir, c: Contract) returns (ok: bool)
      ensures ok == Resumable(d, c)
    {
      if d.origin.None? {
        return d.files == {} && d.temps == 0;
      }
      ok := Stray !in d.files && d.temps == 0 && OriginMatches(d.origin.value, c);
    }

    method InspectFlow(p: nat, proc: Process, a: Answers) returns (i: Inspected)
      ensures i == Inspect(pol, At(p, proc), proc, a)
    {
      hide Consistent, OwnedByOther, Resumable, DiffSnapshots, Safe;
      var k, rel := proc.key, pol.RelOf(proc.slug);
      if k !in files.flows {
        return Refuse(NoFlow);
      }
      var rec := files.flows[k];
      if !Consistent(pol, k, rec) {
        return Refuse(CorruptStore);
      }
      if rec.receipt.Some? {
        return Refuse(IsTerminal);
      }
      if rec.promotion.Some? {
        return Already;
      }
      if !a.sessionOk {
        return Refuse(Unsafe);
      }
      if rec.reservation.Some? && (rec.reservation.value.slug != proc.slug || rec.reservation.value.rel != rel) {
        return Refuse(Conflict);
      }
      if OwnedByOther(files.flows, k, rel) {
        return Refuse(Conflict);
      }
      if rec.Active() && rel in dirs {
        return Refuse(Conflict);
      }
      if rec.reservation.Some? && rel in dirs {
        var resumable := OriginAcceptable(dirs[rel], rec.contract);
        if !resumable {
          return Refuse(Conflict);
        }
      }
      if !a.topologyOk || a.current.None? {
        return Refuse(Unsafe);
      }
      var delta := DiffSnapshots(rec.contract.baseline, a.current.value);
      if delta.rootChanged || delta.metadataChanged || !Safe(a.current.value) {
        return Refuse(Unsafe);
      }
      i := if rec.Active() then Fresh(a.current.value) else Resume(a.current.value);
    }

    /**
     Replaces one file through a temporary one: the directory has that file with its new content, everything else is
     as it was, and the temporary file is gone.
     */
    method WriteAtomic(rel: string, write: Write)
      requires rel in dirs
      modifies this`dirs
      ensures dirs == old(dirs)[rel := WithWrite(old(dirs)[rel], write)]
    {
      dirs := dirs[rel := dirs[rel].(temps := dirs[rel].temps + 1)];
      var renamed := WithWrite(dirs[rel], write);
      dirs := dirs[rel := renamed.(temps := renamed.temps - 1)];
    }

    /** Writes the origin file unless it is there; a diverging one is refused. */
    method EnsureOrigin(rel: string, o: Origin) returns (ok: bool)
      requires rel in dirs
      modifies this`dirs
      ensures ok == (old(dirs)[rel].origin.None? || old(dirs)[rel].origin.value == o)
      ensures dirs == if ok then old(dirs)[rel := old(dirs)[rel].(origin := Some(o))] else old(dirs)
    {
      var d := dirs[rel];
      if d.origin.Some? {
        ok := d.origin.value == o;
        assert ok ==> d.(origin := Some(o)) == d;
        return;
      }
      WriteAtomic(rel, WriteOrigin(o));
      ok := true;
    }

    /** Writes one artifact of the scaffold unless it exists. */
    method WriteArtifact(rel: string, artifact: Artifact)
      requires rel in dirs
      modifies this`dirs
      ensures dirs == old(dirs)[rel := Put(old(dirs)[rel], artifact)]
    {
      var d := dirs[rel];
      if artifact !in d.files {
        dirs := dirs[rel := d.(files := d.files + {artifact})];
      } else {
        assert d.files + {artifact} == d.files;
      }
    }

    method NewChange(rel: string, slug: string)
      requires rel in dirs
      modifies this`dirs, this`pointer
      ensures dirs == old(dirs)[rel := Scaffolded(old(dirs)[rel])] && pointer == slug
    {
      var existed := Proposal in dirs[rel].files;
      ScaffoldSteps(dirs[rel], existed);
      hide *;
      WriteArtifact(rel, Proposal);
      WriteArtifact(rel, TaskList);
      if !existed {
        WriteArtifact(rel, SpecImpact);
      }
      WriteArtifact(rel, Design);
      if !existed && SpecBase !in dirs[rel].files {
        WriteAtomic(rel, WriteBase);
      }
      pointer := slug;
    }

    method EnrichProposal(rel: string)
      requires rel in dirs
      modifies this`dirs
      ensures dirs == old(dirs)[rel := old(dirs)[rel].(enriched := true)]
    {
      if !dirs[rel].enriched {
        WriteAtomic(rel, WriteEnriched);
      }
    }

    /** From the directory to the session registry: every write of the promotion but the last. */
    method WriteChange(key: Key, slug: string, o: Origin) returns (ok: bool)
      requires pol.RelOf(slug) in dirs
      modifies this`dirs, this`pointer, this`sessionSlugs
      ensures ok == Welcome(old(dirs)[pol.RelOf(slug)], o)
      ensures ok ==> dirs == old(dirs)[pol.RelOf(slug) := WrittenDir(old(dirs)[pol.RelOf(slug)], o)] && pointer == slug
                     && sessionSlugs == old(sessionSlugs)[key.session := slug]
      ensures !ok ==> dirs == old(dirs) && pointer == old(pointer) && sessionSlugs == old(sessionSlugs)
    {
      hide Scaffolded;
      var rel := pol.RelOf(slug);
      ok := EnsureOrigin(rel, o);
      if !ok {
        return;
      }
      NewChange(rel, slug);
      EnrichProposal(rel);
      sessionSlugs := sessionSlugs[key.session := slug];
    }

    method Unlock(slug: string)
      modifies this`locks
      ensures locks == old(locks) - {slug}
    {
      locks := locks - {slug};
    }

    /** The locked part once the change is reserved: directory, writes, last look, terminal record. */
    method CompletePromotion(p: nat, proc: Process, a: Answers) returns (ok: bool)
      requires Valid() && p !in others && proc.stage == MakingDir && proc.key in files.flows
      requires files.flows[proc.key].reservation.Some?
      modifies this`dirs, this`locks, this`pointer, this`sessionSlugs, files`flows
      ensures State() == Drive(pol, old(At(p, proc)), p, a)
    {
      hide Drive, Welcome, WrittenDir, TerminalQuiet, PromotionFrom, Apply;
      var rel, k := pol.RelOf(proc.slug), proc.key;
      var r := files.flows[k].reservation.value;
      ghost var g := At(p, proc);
      DriveCompleted(pol, g, p, a);
      dirs := dirs[rel := if rel in dirs then dirs[rel] else BARE];
      ok := WriteChange(k, proc.slug, r.origin);
      if ok && TerminalQuiet(proc, a) {
        var error := files.PutPromotion(k, PromotionFrom(k, r, r.origin));
        ok := error.None?;
      } else {
        ok := false;
      }
      Unlock(proc.slug);
      assert others[p := proc] - {p} == others;
      assert Completed(pol, g, p, a, r, State());
      CompletedUnique(pol, g, p, a, r, State(), Drive(pol, g, p, a));
    }

    /** Reserves the change from what the inspection saw. */
    method ReserveChange(p: nat, seen: Process, a: Answers) returns (ok: bool)
      requires Valid() && p !in others && seen.stage == Reserving && seen.seen.Some? && seen.current.Some?
      modifies this`locks, files`flows
      ensures ok ==> && seen.key in files.flows && files.flows[seen.key].reservation.Some?
                     && Drive(pol, old(At(p, seen)), p, a) == Drive(pol, At(p, seen.(stage := MakingDir)), p, a)
      ensures !ok ==> State() == Drive(pol, old(At(p, seen)), p, a)
    {
      hide Drive, Inspect, Act, ReservationFor, Apply;
      ghost var g := At(p, seen);
      DriveAct(pol, g, p, a);
      ReservingActs(pol, g, p, a);
      var error := files.PutReservation(seen.key, ReservationFor(pol, seen, seen.seen.value, seen.current.value));
      ok := error.None?;
      if ok {
        assert others[p := seen][p := seen.(stage := MakingDir)] == others[p := seen.(stage := MakingDir)];
        assert At(p, seen.(stage := MakingDir)) == ActReserve(pol, g, p);
        ReservedNow(pol, g, p);
      } else {
        Unlock(seen.slug);
        assert others[p := seen] - {p} == others;
      }
    }

    /** Everything that happens under the lock of the slug. */
    method RunLocked(p: nat, proc: Process, a: Answers) returns (ok: bool)
      requires Valid() && p !in others && proc.stage == Inspecting
      modifies this`dirs, this`locks, this`pointer, this`sessionSlugs, files`flows
      ensures State() == Drive(pol, old(At(p, proc)), p, a)
    {
      hide Drive, Inspect, Act, ReservationFor, Apply;
      ghost var g := At(p, proc);
      DriveAct(pol, g, p, a);
      ActInspects(pol, g, p, a);
      var i := InspectFlow(p, proc, a);
      if i.Refuse? || i.Already? {
        Unlock(proc.slug);
        assert others[p := proc] - {p} == others;
        return i.Already?;
      }
      InspectFinds(pol, g, proc, a);
      var next := proc.(stage := MakingDir, current := Some(i.current));
      if i.Fresh? {
        var seen := proc.(stage := Reserving, seen := Some(files.flows[proc.key]), current := Some(i.current));
        assert others[p := proc][p := seen] == others[p := seen];
        ok := ReserveChange(p, seen, a);
        if !ok {
          return;
        }
        next := seen.(stage := MakingDir);
      } else {
        assert others[p := proc][p := next] == others[p := next];
      }
      ok := CompletePromotion(p, next, a);
    }

    method PromoteFlow(p: nat, k: Key, asked: string, now: nat, a: Answers) returns (ok: bool)
      requires Valid() && p !in others
      modifies this`dirs, this`locks, this`pointer, this`sessionSlugs, files`flows
      ensures State() == Drive(pol, Begin(pol, old(State()), p, k, asked, now), p, a)
    {
      hide Drive, BeginRefusal, SlugFor;
      ghost var start := State();
      NoDrive(pol, start, p, a);
      var refusal := MayBegin(k, asked);
      if refusal.Some? {
        return refusal == Some(IsTerminal) && k in files.flows && files.flows[k].promotion.Some?;
      }
      var slug := SlugFor(files.flows[k], asked);
      var proc := Process(k, slug, now, Inspecting, false, None, None);
      locks := locks[slug := p];
      assert At(p, proc) == Begin(pol, start, p, k, asked, now);
      ok := RunLocked(p, proc, a);
    }

    method MayBegin(k: Key, asked: string) returns (refusal: Option<Refusal>)
      ensures refusal == BeginRefusal(pol, State(), k, asked) && (refusal.None? ==> k in files.flows)
    {
      hide Consistent;
      if k !in files.flows {
        return Some(NoFlow);
      }
      var rec := files.flows[k];
      if !Consistent(pol, k, rec) {
        return Some(CorruptStore);
      }
      if rec.receipt.Some? || rec.promotion.Some? {
        return Some(IsTerminal);
      }
      var slug := if rec.reservation.Some? then rec.reservation.value.slug
                  else if asked != "" then asked else rec.contract.slug;
      if !pol.slugOk(slug) {
        return Some(BadSlug);
      }
      if rec.reservation.Some? && asked != "" && asked != slug {
        return Some(Conflict);
      }
      if slug in locks {
        return Some(Busy);
      }
      refusal := None;
    }
  }

  lemma ScaffoldSteps(d: Dir, existed: bool)
    requires existed == (Proposal in d.files)
    ensures var begun := Put(Put(d, Proposal), TaskList);
            var designed := Put(if existed then begun else Put(begun, SpecImpact), Design);
            && Scaffolded(d) == (if existed then designed else Put(designed, SpecBase))
            && (SpecBase in designed.files && !existed ==> Put(designed, SpecBase) == designed)
  {
    var begun := Put(Put(d, Proposal), TaskList);
    var designed := Put(if existed then begun else Put(begun, SpecImpact), Design);
    assert Scaffolded(d).files == (if existed then designed else Put(designed, SpecBase)).files;
    assert SpecBase in designed.files ==> designed.files + {SpecBase} == designed.files;
  }

  lemma NoDrive(pol: Policy, g: World, p: nat, a: Answers)
    requires p !in g.procs
    ensures Drive(pol, g, p, a) == g
  {
  }

  lemma ActInspects(pol: Policy, g: World, p: nat, a: Answers)
    requires p in g.procs && g.procs[p].stage == Inspecting
    ensures Act(pol, g, p, a) == AfterInspect(g, p, Inspect(pol, g, g.procs[p], a))
  {
    hide Inspect;
  }

  lemma ReservedNow(pol: Policy, g: World, p: nat)
    requires p in g.procs && g.procs[p].seen.Some? && g.procs[p].current.Some?
    requires var proc := g.procs[p];
             Apply(pol, g.flows, Reserve(proc.key,
                 ReservationFor(pol, proc, proc.seen.value, proc.current.value))).Done?
    ensures var k := g.procs[p].key; var after := ActReserve(pol, g, p);
            k in after.flows && after.flows[k].reservation.Some?
  {
    var proc := g.procs[p];
    var r := ReservationFor(pol, proc, proc.seen.value, proc.current.value);
    ReserveSays(pol, g.flows, proc.key, r);
    hide Apply, ReservationFor;
  }

  lemma InspectFinds(pol: Policy, g: World, proc: Process, a: Answers)
    ensures var i := Inspect(pol, g, proc, a);
            i.Fresh? || i.Resume? ==> proc.key in g.flows && (i.Resume? ==> g.flows[proc.key].reservation.Some?)
  {
    InspectSays(pol, g, proc, a);
    hide Inspect;
  }
}
