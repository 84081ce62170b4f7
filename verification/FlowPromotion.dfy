/**
 Promoting a FLOW to a change (hooks/flow-core.mjs, hooks/change-core.mjs): any number of processes, each under
 the lock of its slug, write one durable thing after the other and may die between any two of them.
 */
module FlowPromotion {
  import opened Common
  import opened FlowSnapshot
  import opened FlowStore

  datatype Artifact = Proposal | TaskList | SpecImpact | Design | SpecBase | Stray

  // A change directory. `temps` counts what an atomic write has created and not yet renamed.
  datatype Dir = Dir(files: set<Artifact>, origin: Option<Origin>, enriched: bool, temps: nat)
  {
    predicate IsEmpty() {
      files == {} && origin.None? && temps == 0
    }
  }

  const BARE := Dir({}, None, false, 0)

  // What a process does next; each stage but the first is one durable write.
  datatype Stage =
    | Inspecting | Reserving | MakingDir | OriginTemp | OriginSave | Proposing | Listing | Impacting | Designing
    | BaseTemp | BaseSave | Pointing | EnrichTemp | EnrichSave | Registering | Settling

  function Order(s: Stage): nat {
    match s
    case Inspecting => 0 case Reserving => 1 case MakingDir => 2 case OriginTemp => 3 case OriginSave => 4
    case Proposing => 5 case Listing => 6 case Impacting => 7 case Designing => 8 case BaseTemp => 9
    case BaseSave => 10 case Pointing => 11 case EnrichTemp => 12 case EnrichSave => 13
    case Registering => 14 case Settling => 15
  }

  // `first` says that the proposal did not exist; `seen` and `current` are what the inspection read.
  datatype Process = Process(key: Key, slug: string, now: nat, stage: Stage, first: bool,
                             seen: Option<Record>, current: Option<Snapshot>)

  datatype World = World(
    flows: Store, dirs: map<string, Dir>, locks: map<string, nat>, procs: map<nat, Process>,
    pointer: string, sessionSlugs: map<string, string>)

  // What one step is told: the snapshots, and whether session note and topology check out.
  datatype Answers = Answers(current: Option<Snapshot>, terminal: Option<Snapshot>, sessionOk: bool, topologyOk: bool)

  datatype Refusal = NoFlow | IsTerminal | BadSlug | Conflict | Busy | CorruptStore | Unsafe | StoreSaid(error: Error)

  datatype Inspected = Refuse(why: Refusal) | Already | Fresh(current: Snapshot) | Resume(current: Snapshot)

  // ---------- beginning ----------

  function SlugFor(rec: Record, asked: string): string {
    if rec.reservation.Some? then rec.reservation.value.slug
    else if asked != "" then asked
    else rec.contract.slug
  }

  function BeginRefusal(pol: Policy, g: World, k: Key, asked: string): Option<Refusal> {
    if k !in g.flows then Some(NoFlow)
    else
      var rec := g.flows[k];
      if !Consistent(pol, k, rec) then Some(CorruptStore)
      else if rec.receipt.Some? || rec.promotion.Some? then Some(IsTerminal)
      else if !pol.slugOk(SlugFor(rec, asked)) then Some(BadSlug)
      else if rec.reservation.Some? && asked != "" && asked != SlugFor(rec, asked) then Some(Conflict)
      else if SlugFor(rec, asked) in g.locks then Some(Busy)
      else None
  }

  function Begin(pol: Policy, g: World, p: nat, k: Key, asked: string, now: nat): World {
    if p in g.procs || BeginRefusal(pol, g, k, asked).Some? then g
    else
      var slug := SlugFor(g.flows[k], asked);
      g.(locks := g.locks[slug := p],
         procs := g.procs[p := Process(k, slug, now, Inspecting, false, None, None)])
  }

  // The process ends, one way or the other, and its lock is free again.
  function Release(g: World, p: nat): World
    requires p in g.procs
  {
    g.(locks := g.locks - {g.procs[p].slug}, procs := g.procs - {p})
  }

  // ---------- inspecting ----------

  predicate Owns(rec: Record, rel: string) {
    || (rec.reservation.Some? && rec.reservation.value.rel == rel)
    || (rec.promotion.Some? && rec.promotion.value.rel == rel)
  }

  predicate OwnedByOther(flows: Store, k: Key, rel: string) {
    exists j :: j in flows && j != k && Owns(flows[j], rel)
  }

  predicate OriginMatches(o: Origin, c: Contract) {
    o.flow == c.key.flow && o.contract == c
  }

  // The checks on a directory that is there when a reserved promotion is taken up again.
  predicate Resumable(d: Dir, c: Contract) {
    if d.origin.None? then d.IsEmpty()
    else Stray !in d.files && d.temps == 0 && OriginMatches(d.origin.value, c)
  }

  function Inspect(pol: Policy, g: World, proc: Process, a: Answers): Inspected {
    if proc.key !in g.flows then Refuse(NoFlow)
    else
      var rec, rel := g.flows[proc.key], pol.RelOf(proc.slug);
      if !Consistent(pol, proc.key, rec) then Refuse(CorruptStore)
      else if rec.receipt.Some? then Refuse(IsTerminal)
      else if rec.promotion.Some? then Already
      else if !a.sessionOk then Refuse(Unsafe)
      else if rec.reservation.Some?
          && (rec.reservation.value.slug != proc.slug || rec.reservation.value.rel != rel) then
        Refuse(Conflict)
      else if OwnedByOther(g.flows, proc.key, rel) then Refuse(Conflict)
      else if rec.Active() && rel in g.dirs then Refuse(Conflict)
      else if rec.reservation.Some? && rel in g.dirs && !Resumable(g.dirs[rel], rec.contract) then Refuse(Conflict)
      else if !a.topologyOk || a.current.None? then Refuse(Unsafe)
      else
        var d := DiffSnapshots(rec.contract.baseline, a.current.value);
        if d.rootChanged || d.metadataChanged || !Safe(a.current.value) then Refuse(Unsafe)
        else if rec.Active() then Fresh(a.current.value)
        else Resume(a.current.value)
  }

  function ReservationFor(pol: Policy, proc: Process, rec: Record, current: Snapshot): Reservation {
    var d := DiffSnapshots(rec.contract.baseline, current);
    Reservation(proc.key.flow, proc.now, proc.slug, pol.RelOf(proc.slug),
      Origin(proc.key.flow, proc.now, rec.contract, rec.attempts,
        Observed(rec.contract.baseline.head, current.head, d.headChanged, d.changedPaths)))
  }

  // ---------- writing the change ----------

  function Put(d: Dir, a: Artifact): Dir {
    d.(files := d.files + {a})
  }

  // A rename needs the temporary file it renames.
  predicate TempReady(d: Dir, s: Stage) {
    d.temps > 0 || (s != OriginSave && s != BaseSave && s != EnrichSave)
  }

  // One durable write on the directory, or none where the code finds it done; None is a diverging origin.
  function Advance(d: Dir, s: Stage, first: bool, o: Origin): Option<(Dir, Stage, bool)>
    requires 3 <= Order(s) <= 14
    requires TempReady(d, s)
  {
    match s
    case OriginTemp =>
      if d.origin.None? then Some((d.(temps := d.temps + 1), OriginSave, first))
      else if d.origin.value == o then Some((d, Proposing, first))
      else None
    case OriginSave => Some((d.(temps := d.temps - 1, origin := Some(o)), Proposing, first))
    case Proposing => Some((Put(d, Proposal), Listing, Proposal !in d.files))
    case Listing => Some((Put(d, TaskList), Impacting, first))
    case Impacting => Some((if first then Put(d, SpecImpact) else d, Designing, first))
    case Designing => Some((Put(d, Design), BaseTemp, first))
    case BaseTemp =>
      if first && SpecBase !in d.files then Some((d.(temps := d.temps + 1), BaseSave, first))
      else Some((d, Pointing, first))
    case BaseSave => Some((Put(d.(temps := d.temps - 1), SpecBase), Pointing, first))
    case Pointing => Some((d, EnrichTemp, first))
    case EnrichTemp =>
      if !d.enriched then Some((d.(temps := d.temps + 1), EnrichSave, first)) else Some((d, Registering, first))
    case EnrichSave => Some((d.(temps := d.temps - 1, enriched := true), Registering, first))
    case Registering => Some((d, Settling, first))
  }

  function PromotionFrom(k: Key, r: Reservation, o: Origin): Promotion {
    Promotion(k.flow, o.promotedAt, r.slug, r.rel, OriginFile(r.rel), o.observed.changedPaths,
              o.observed.baselineHead, o.observed.currentHead)
  }

  predicate TerminalQuiet(proc: Process, a: Answers) {
    && a.topologyOk && a.sessionOk && a.terminal.Some? && proc.current.Some?
    && DiffSnapshots(proc.current.value, a.terminal.value).Quiet() && Safe(a.terminal.value)
  }

  function SetStage(g: World, p: nat, proc: Process): World {
    g.(procs := g.procs[p := proc])
  }

  function AfterInspect(g: World, p: nat, i: Inspected): World
    requires p in g.procs
  {
    var proc := g.procs[p];
    match i
    case Fresh(current) =>
      if proc.key !in g.flows then Release(g, p)
      else SetStage(g, p, proc.(stage := Reserving, seen := Some(g.flows[proc.key]), current := Some(current)))
    case Resume(current) => SetStage(g, p, proc.(stage := MakingDir, current := Some(current)))
    case _ => Release(g, p)
  }

  function ActReserve(pol: Policy, g: World, p: nat): World
    requires p in g.procs
  {
    var proc := g.procs[p];
    if proc.seen.None? || proc.current.None? then Release(g, p)
    else
      match Apply(pol, g.flows, Reserve(proc.key, ReservationFor(pol, proc, proc.seen.value, proc.current.value)))
      case Thrown(_) => Release(g, p)
      case Done(flows) => SetStage(g.(flows := flows), p, proc.(stage := MakingDir))
  }

  function ActMakeDir(g: World, p: nat, rel: string): World
    requires p in g.procs
  {
    SetStage(g.(dirs := g.dirs[rel := if rel in g.dirs then g.dirs[rel] else BARE]), p,
             g.procs[p].(stage := OriginTemp))
  }

  function ActSettle(pol: Policy, g: World, p: nat, r: Reservation, a: Answers): World
    requires p in g.procs
  {
    var proc := g.procs[p];
    if !TerminalQuiet(proc, a) then Release(g, p)
    else
      match Apply(pol, g.flows, WritePromotion(proc.key, PromotionFrom(proc.key, r, r.origin)))
      case Thrown(_) => Release(g, p)
      case Done(flows) => Release(g.(flows := flows), p)
  }

  function ActAdvance(g: World, p: nat, rel: string, o: Origin): World
    requires p in g.procs && 3 <= Order(g.procs[p].stage) <= 14
  {
    var proc := g.procs[p];
    if rel !in g.dirs || !TempReady(g.dirs[rel], proc.stage) then Release(g, p)
    else
      match Advance(g.dirs[rel], proc.stage, proc.first, o)
      case None => Release(g, p)
      case Some((d, stage, first)) =>
        SetStage(
          g.(dirs := g.dirs[rel := d],
             pointer := if proc.stage == Pointing then proc.slug else g.pointer,
             sessionSlugs := if proc.stage == Registering then g.sessionSlugs[proc.key.session := proc.slug]
                             else g.sessionSlugs),
          p, proc.(stage := stage, first := first))
  }

  function Act(pol: Policy, g: World, p: nat, a: Answers): World
    requires p in g.procs
  {
    var proc := g.procs[p];
    var rel := pol.RelOf(proc.slug);
    if proc.stage == Inspecting then AfterInspect(g, p, Inspect(pol, g, proc, a))
    else if proc.stage == Reserving then ActReserve(pol, g, p)
    else if proc.key !in g.flows || g.flows[proc.key].reservation.None? then Release(g, p)
    else
      var r := g.flows[proc.key].reservation.value;
      if proc.stage == MakingDir then ActMakeDir(g, p, rel)
      else if proc.stage == Settling then ActSettle(pol, g, p, r, a)
      else ActAdvance(g, p, rel, r.origin)
  }

  // ---------- runs ----------

  // A crash leaves everything durable as it is; the lock of a dead owner is reaped.
  datatype Event =
    | Beginning(p: nat, key: Key, asked: string, now: nat)
    | Acting(p: nat, answers: Answers)
    | Crash(p: nat)
    | Elsewhere(call: Call)

  // Reservations and promotions are written by promoting processes only.
  predicate Proper(e: Event) {
    e.Elsewhere? ==> !e.call.Reserve? && !e.call.WritePromotion?
  }

  function Step(pol: Policy, g: World, e: Event): World {
    match e
    case Beginning(p, k, asked, now) => Begin(pol, g, p, k, asked, now)
    case Acting(p, a) => if p in g.procs then Act(pol, g, p, a) else g
    case Crash(p) => if p in g.procs then Release(g, p) else g
    case Elsewhere(call) => g.(flows := Next(pol, g.flows, call))
  }

  const NEW_WORLD := World(map[], map[], map[], map[], "", map[])

  function History(pol: Policy, events: seq<Event>): World {
    if events == [] then NEW_WORLD else Step(pol, History(pol, events[..|events| - 1]), events[|events| - 1])
  }
}
