/** Whole runs of promotion: one owner for a change, exactly which crashes can be resumed, and what a retry reaches. */
module FlowPromotionRuns {
  import opened Common
  import opened FlowSnapshot
  import opened FlowStore
  import opened FlowPromotion
  import opened FlowPromotionInv

  /** No run, however interleaved and whatever crashes, gives one change to two flows. */
  lemma OneOwner(pol: Policy, events: seq<Event>, j: Key, k: Key, rel: string)
    requires forall e | e in events :: Proper(e)
    requires var flows := History(pol, events).flows;
             j in flows && k in flows && Owns(flows[j], rel) && Owns(flows[k], rel)
    ensures j == k
  {
    HistoryKeeps(pol, events);
    var flows := History(pol, events).flows;
    hide History, Locked, DirsOwned, Stages, Promoted;
    assert Consistent(pol, j, flows[j]) && Consistent(pol, k, flows[k]);
  }

  // ---------- nothing durable is taken back ----------

  lemma ReserveExtends(pol: Policy, g: World, p: nat)
    requires Sound(pol, g.flows) && p in g.procs
    ensures Sound(pol, ActReserve(pol, g, p).flows) && StoreExtends(g.flows, ActReserve(pol, g, p).flows)
  {
    hide Sound, StoreExtends, Apply, ReservationFor;
    StoreExtendsSelf(pol, g.flows);
    var proc := g.procs[p];
    if proc.seen.Some? && proc.current.Some? {
      NextKeeps(pol, g.flows, Reserve(proc.key, ReservationFor(pol, proc, proc.seen.value, proc.current.value)));
    }
  }

  lemma SettleExtends(pol: Policy, g: World, p: nat, r: Reservation, a: Answers)
    requires Sound(pol, g.flows) && p in g.procs
    ensures Sound(pol, ActSettle(pol, g, p, r, a).flows) && StoreExtends(g.flows, ActSettle(pol, g, p, r, a).flows)
  {
    hide Sound, StoreExtends, Apply, PromotionFrom, TerminalQuiet;
    StoreExtendsSelf(pol, g.flows);
    NextKeeps(pol, g.flows, WritePromotion(g.procs[p].key, PromotionFrom(g.procs[p].key, r, r.origin)));
  }

  lemma ActExtends(pol: Policy, g: World, p: nat, a: Answers)
    requires Sound(pol, g.flows) && p in g.procs
    ensures Sound(pol, Act(pol, g, p, a).flows) && StoreExtends(g.flows, Act(pol, g, p, a).flows)
  {
    hide Sound, StoreExtends, Inspect, Advance, TempReady, ActReserve, ActSettle;
    StoreExtendsSelf(pol, g.flows);
    ReserveExtends(pol, g, p);
    if g.procs[p].key in g.flows && g.flows[g.procs[p].key].reservation.Some? {
      SettleExtends(pol, g, p, g.flows[g.procs[p].key].reservation.value, a);
    }
  }

  lemma StepExtends(pol: Policy, g: World, e: Event)
    requires Sound(pol, g.flows)
    ensures Sound(pol, Step(pol, g, e).flows) && StoreExtends(g.flows, Step(pol, g, e).flows)
  {
    StoreExtendsSelf(pol, g.flows);
    hide Sound, StoreExtends, Act, BeginRefusal, Next;
    match e
    case Acting(p, a) =>
      if p in g.procs {
        ActExtends(pol, g, p, a);
      }
    case Elsewhere(call) => NextKeeps(pol, g.flows, call);
    case _ =>
  }

  function From(pol: Policy, g: World, events: seq<Event>): World {
    if events == [] then g else Step(pol, From(pol, g, events[..|events| - 1]), events[|events| - 1])
  }

  /** Once reserved or promoted, the record of a flow is fixed in every later run, crashes and retries included. */
  lemma {:induction false} RecordsStay(pol: Policy, g: World, events: seq<Event>, k: Key)
    requires Sound(pol, g.flows) && k in g.flows
    ensures var after := From(pol, g, events).flows;
            && Sound(pol, after) && k in after && after[k].contract == g.flows[k].contract
            && (g.flows[k].reservation.Some? ==>
                  after[k].reservation == g.flows[k].reservation && after[k].receipt.None?
                  && after[k].attempts == g.flows[k].attempts)
            && (g.flows[k].promotion.Some? ==> after[k].promotion == g.flows[k].promotion)
            && (g.flows[k].receipt.Some? ==> after[k].receipt == g.flows[k].receipt && after[k].reservation.None?)
  {
    if events != [] {
      var mid := From(pol, g, events[..|events| - 1]);
      RecordsStay(pol, g, events[..|events| - 1], k);
      StepExtends(pol, mid, events[|events| - 1]);
      hide Sound, Step;
    } else {
      SoundRecord(pol, g.flows, k);
      hide Sound;
    }
  }

  // ---------- after a crash ----------

  // Snapshot and session note still permit a promotion.
  predicate Acceptable(c: Contract, a: Answers) {
    && a.sessionOk && a.topologyOk && a.current.Some? && Safe(a.current.value)
    && !DiffSnapshots(c.baseline, a.current.value).rootChanged
    && !DiffSnapshots(c.baseline, a.current.value).metadataChanged
  }

  predicate HasTemp(dirs: map<string, Dir>, rel: string) {
    rel in dirs && dirs[rel].temps > 0
  }

  lemma InspectReserved(pol: Policy, g: World, proc: Process, a: Answers)
    requires Sound(pol, g.flows) && OwnedOnce(g.flows) && DirsOwned(g.flows, g.dirs)
    requires proc.key in g.flows && g.flows[proc.key].reservation.Some? && g.flows[proc.key].promotion.None?
    requires g.flows[proc.key].reservation.value.slug == proc.slug && Acceptable(g.flows[proc.key].contract, a)
    ensures Inspect(pol, g, proc, a)
            == if HasTemp(g.dirs, pol.RelOf(proc.slug)) then Refuse(Conflict) else Resume(a.current.value)
  {
    var k, rel := proc.key, pol.RelOf(proc.slug);
    var rec := g.flows[k];
    SoundRecord(pol, g.flows, k);
    assert rec.receipt.None? && rec.reservation.value.rel == rel;
    NotOwnedByOther(pol, g.flows, k, rel);
    if rel in g.dirs {
      OwnDirFits(g.flows, g.dirs, k, rel);
      assert rec.reservation.value.origin.flow == k.flow && rec.reservation.value.origin.contract == rec.contract;
      hide Sound, OwnedOnce, DirsOwned, Consistent;
      assert Resumable(g.dirs[rel], rec.contract) <==> g.dirs[rel].temps == 0;
    }
    hide Sound, OwnedOnce, DirsOwned, Consistent, OwnedByOther, Resumable, DirFits, DiffSnapshots, Safe;
  }

  lemma NotOwnedByOther(pol: Policy, flows: Store, k: Key, rel: string)
    requires Sound(pol, flows) && OwnedOnce(flows) && Reserved(flows, k, rel)
    ensures !OwnedByOther(flows, k, rel)
  {
    forall j | j in flows && j != k ensures !Owns(flows[j], rel) {
      SoundRecord(pol, flows, j);
      hide Sound;
    }
  }

  lemma StageTemps(pol: Policy, flows: Store, dirs: map<string, Dir>, proc: Process)
    requires StageOk(pol, flows, dirs, proc) && Order(proc.stage) >= 2
    ensures Holds(pol, flows, proc) && (HasTemp(dirs, pol.RelOf(proc.slug)) <==> IsSave(proc.stage))
  {
    hide Holds;
  }

  /**
   What a crash after the reservation leaves: the flow still reserved, its lock free, and a temporary file exactly
   when the process died between creating and renaming it.
   */
  lemma CrashLeaves(pol: Policy, g: World, p: nat)
    requires Inv(pol, g) && p in g.procs && Order(g.procs[p].stage) >= 2
    ensures var proc, after := g.procs[p], Step(pol, g, Crash(p));
            && Inv(pol, after) && proc.slug !in after.locks && p !in after.procs
            && Holds(pol, after.flows, proc)
            && (HasTemp(after.dirs, pol.RelOf(proc.slug)) <==> IsSave(proc.stage))
  {
    ReleaseKeeps(pol, g, p);
    Parts(pol, g, p);
    hide Inv, Sound, OwnedOnce, DirsOwned, Holds, StageOk, HasTemp;
    StageTemps(pol, g.flows, g.dirs, g.procs[p]);
  }

  /** A retry goes on exactly when no temporary file was left: a crash inside an atomic write blocks it for good. */
  lemma RetryExactly(pol: Policy, g: World, proc: Process, q: nat, now: nat, a: Answers)
    requires Inv(pol, g) && Holds(pol, g.flows, proc) && proc.slug !in g.locks && q !in g.procs
    requires Acceptable(g.flows[proc.key].contract, a)
    ensures var retry := Begin(pol, g, q, proc.key, "", now);
            && q in retry.procs
            && Inspect(pol, retry, retry.procs[q], a)
               == if HasTemp(g.dirs, pol.RelOf(proc.slug)) then Refuse(Conflict) else Resume(a.current.value)
  {
    CanBegin(pol, g, q, proc, now);
    var retry := Begin(pol, g, q, proc.key, "", now);
    InvParts(pol, g);
    hide Begin, HasTemp, Inv, Sound, OwnedOnce, DirsOwned, Acceptable, Inspect;
    InspectReserved(pol, retry, retry.procs[q], a);
  }

  lemma InvParts(pol: Policy, g: World)
    requires Inv(pol, g)
    ensures Sound(pol, g.flows) && OwnedOnce(g.flows) && DirsOwned(g.flows, g.dirs)
  {
    hide Sound, OwnedOnce, DirsOwned, Locked, Stages, Promoted;
  }

  lemma CanBegin(pol: Policy, g: World, q: nat, proc: Process, now: nat)
    requires Inv(pol, g) && Holds(pol, g.flows, proc) && proc.slug !in g.locks && q !in g.procs
    ensures Begin(pol, g, q, proc.key, "", now)
            == g.(locks := g.locks[proc.slug := q],
                  procs := g.procs[q := Process(proc.key, proc.slug, now, Inspecting, false, None, None)])
  {
    InvParts(pol, g);
    SoundRecord(pol, g.flows, proc.key);
    hide Inv, Sound, OwnedOnce, DirsOwned;
  }

  // ---------- what a retry reaches ----------

  function Rest(g: World, p: nat): nat {
    if p in g.procs then 16 - Order(g.procs[p].stage) else 0
  }

  lemma AdvanceProgress(g: World, p: nat, rel: string, o: Origin)
    requires p in g.procs && 3 <= Order(g.procs[p].stage) <= 14
    ensures Rest(ActAdvance(g, p, rel, o), p) < Rest(g, p)
  {
    hide TempReady;
  }

  lemma SettleProgress(pol: Policy, g: World, p: nat, r: Reservation, a: Answers)
    requires p in g.procs && g.procs[p].stage == Settling
    ensures Rest(ActSettle(pol, g, p, r, a), p) < Rest(g, p)
  {
    hide TerminalQuiet, Apply, PromotionFrom;
  }

  lemma ActProgress(pol: Policy, g: World, p: nat, a: Answers)
    requires p in g.procs
    ensures Rest(Act(pol, g, p, a), p) < Rest(g, p)
  {
    hide Inspect, Apply, ReservationFor, ActSettle, ActAdvance;
    var stage := g.procs[p].stage;
    if stage != Inspecting && stage != Reserving && stage != MakingDir
       && g.procs[p].key in g.flows && g.flows[g.procs[p].key].reservation.Some? {
      var r := g.flows[g.procs[p].key].reservation.value;
      if stage == Settling {
        SettleProgress(pol, g, p, r, a);
      } else {
        AdvanceProgress(g, p, pol.RelOf(g.procs[p].slug), r.origin);
      }
    }
  }

  // A process that is left alone, with the same answers throughout.
  function Drive(pol: Policy, g: World, p: nat, a: Answers): World
    decreases Rest(g, p)
  {
    if p !in g.procs then g
    else
      ActProgress(pol, g, p, a);
      Drive(pol, Act(pol, g, p, a), p, a)
  }

  // What one undisturbed step does after the reservation: it goes on, or in the end writes the promotion.
  lemma ActForward(pol: Policy, g: World, p: nat, a: Answers)
    requires Inv(pol, g) && p in g.procs && 2 <= Order(g.procs[p].stage) <= 14
    ensures var after := Act(pol, g, p, a); var proc := g.procs[p];
            && p in after.procs && after.flows == g.flows && Order(after.procs[p].stage) > Order(proc.stage)
            && after.procs[p].key == proc.key && after.procs[p].slug == proc.slug
            && after.procs[p].current == proc.current
  {
    hide Inv, Sound, OwnedOnce, DirsOwned, StageOk, Advance, TempReady, DirFits, Holds, ActSettle, ActReserve, Inspect;
    Parts(pol, g, p);
    StageTemps(pol, g.flows, g.dirs, g.procs[p]);
    assert Reserved(g.flows, g.procs[p].key, pol.RelOf(g.procs[p].slug)) by { HoldsReserved(pol, g.flows, g.procs[p]); }
    if g.procs[p].stage != MakingDir {
      Advanced(pol, g.flows, g.dirs, g.procs[p]);
    }
  }

  lemma HoldsReserved(pol: Policy, flows: Store, proc: Process)
    requires Holds(pol, flows, proc)
    ensures Reserved(flows, proc.key, pol.RelOf(proc.slug)) && flows[proc.key].promotion.None?
  {
  }

  lemma PromotionAccepted(pol: Policy, st: Store, k: Key)
    requires Sound(pol, st) && k in st && st[k].reservation.Some? && st[k].promotion.None?
    ensures var r := st[k].reservation.value;
            Apply(pol, st, WritePromotion(k, PromotionFrom(k, r, r.origin))) == Done(WithPromotion(st, k))
  {
    SoundRecord(pol, st, k);
    hide Sound;
  }

  ghost predicate Ended(pol: Policy, g: World, k: Key, rel: string, after: World) {
    && k in g.flows && g.flows[k].reservation.Some? && after.flows == WithPromotion(g.flows, k)
    && rel in after.dirs && Complete(after.dirs[rel])
  }

  /** Left alone after its reservation, a promotion ends promoted, with a record fixed by the reservation. */
  lemma {:induction false} DriveCompletes(pol: Policy, g: World, p: nat, a: Answers)
    requires Inv(pol, g) && p in g.procs && Order(g.procs[p].stage) >= 2 && TerminalQuiet(g.procs[p], a)
    ensures Inv(pol, Drive(pol, g, p, a)) && p !in Drive(pol, g, p, a).procs
    ensures Ended(pol, g, g.procs[p].key, pol.RelOf(g.procs[p].slug), Drive(pol, g, p, a))
    decreases Rest(g, p)
  {
    hide Inv, Act, TerminalQuiet, Sound, OwnedOnce, DirsOwned, StageOk;
    var proc := g.procs[p];
    ActKeeps(pol, g, p, a);
    ActProgress(pol, g, p, a);
    var after := Act(pol, g, p, a);
    if proc.stage == Settling {
      hide Complete, Holds, WithPromotion, Reserved;
      Parts(pol, g, p);
      SettlingIsComplete(pol, g, proc);
      StageTemps(pol, g.flows, g.dirs, proc);
      HoldsReserved(pol, g.flows, proc);
      SettleActs(pol, g, p, a);
      assert Drive(pol, after, p, a) == after;
    } else {
      hide WithPromotion, Complete;
      ActForward(pol, g, p, a);
      SameTerminal(proc, after.procs[p], a);
      DriveCompletes(pol, after, p, a);
    }
  }

  lemma SameTerminal(proc: Process, next: Process, a: Answers)
    requires TerminalQuiet(proc, a) && next.current == proc.current
    ensures TerminalQuiet(next, a)
  {
  }

  lemma SettleActs(pol: Policy, g: World, p: nat, a: Answers)
    requires p in g.procs && g.procs[p].stage == Settling && TerminalQuiet(g.procs[p], a) && Sound(pol, g.flows)
    requires Holds(pol, g.flows, g.procs[p])
    ensures Act(pol, g, p, a) == Release(g.(flows := WithPromotion(g.flows, g.procs[p].key)), p)
  {
    PromotionAccepted(pol, g.flows, g.procs[p].key);
    hide Sound, Apply, TerminalQuiet, WithPromotion, PromotionFrom;
  }

  lemma ResumeDrives(pol: Policy, g: World, q: nat, a: Answers)
    requires Inv(pol, g) && q in g.procs && g.procs[q].stage == Inspecting && a.current.Some?
    requires Inspect(pol, g, g.procs[q], a) == Resume(a.current.value)
    requires TerminalQuiet(g.procs[q].(current := a.current), a)
    ensures Inv(pol, Drive(pol, g, q, a))
    ensures Ended(pol, g, g.procs[q].key, pol.RelOf(g.procs[q].slug), Drive(pol, g, q, a))
  {
    hide Inv, Inspect, TerminalQuiet, WithPromotion, Complete;
    var proc := g.procs[q];
    ActKeeps(pol, g, q, a);
    ActProgress(pol, g, q, a);
    var next := SetStage(g, q, proc.(stage := MakingDir, current := a.current));
    assert Act(pol, g, q, a) == next;
    hide Act;
    SameTerminal(proc.(current := a.current), next.procs[q], a);
    DriveCompletes(pol, next, q, a);
  }

  /** The retry that a crash leaves open: acceptable and unmoving snapshots take it to promoted. */
  lemma RetryCompletes(pol: Policy, g: World, proc: Process, q: nat, now: nat, a: Answers)
    requires Inv(pol, g) && Holds(pol, g.flows, proc) && proc.slug !in g.locks && q !in g.procs
    requires Acceptable(g.flows[proc.key].contract, a) && !HasTemp(g.dirs, pol.RelOf(proc.slug))
    requires a.terminal.Some? && DiffSnapshots(a.current.value, a.terminal.value).Quiet() && Safe(a.terminal.value)
    ensures var after := Drive(pol, Begin(pol, g, q, proc.key, "", now), q, a);
            Inv(pol, after) && Ended(pol, g, proc.key, pol.RelOf(proc.slug), after)
  {
    hide Begin, Inv, Holds, HasTemp, Inspect, Act, Drive, WithPromotion, Complete, DiffSnapshots, Safe;
    var retry := Begin(pol, g, q, proc.key, "", now);
    CanBegin(pol, g, q, proc, now);
    RetryExactly(pol, g, proc, q, now, a);
    BeginKeeps(pol, g, q, proc.key, "", now);
    ResumeDrives(pol, retry, q, a);
  }

  // ---------- the first promotion ----------

  // The slug that was asked for, else that of the contract.
  function Slug(c: Contract, asked: string): string {
    if asked != "" then asked else c.slug
  }

  predicate CanPromote(pol: Policy, g: World, k: Key, asked: string, q: nat, a: Answers) {
    && k in g.flows && g.flows[k].Active() && q !in g.procs
    && var c := g.flows[k].contract; var slug := Slug(c, asked);
       && pol.slugOk(slug) && slug !in g.locks && Acceptable(c, a)
       && (forall j | j in g.flows :: !Owns(g.flows[j], pol.RelOf(slug)))
       && AllCanonical(pol, DiffSnapshots(c.baseline, a.current.value).changedPaths)
  }

  function Begun(g: World, k: Key, slug: string, q: nat, now: nat): World {
    g.(locks := g.locks[slug := q], procs := g.procs[q := Process(k, slug, now, Inspecting, false, None, None)])
  }

  lemma BeginsFirst(pol: Policy, g: World, k: Key, asked: string, q: nat, now: nat, a: Answers)
    requires Inv(pol, g) && CanPromote(pol, g, k, asked, q, a)
    ensures Begin(pol, g, q, k, asked, now) == Begun(g, k, Slug(g.flows[k].contract, asked), q, now)
  {
    InvParts(pol, g);
    SoundRecord(pol, g.flows, k);
    hide Inv, Sound, OwnedOnce, DirsOwned, Consistent, Acceptable, Owns;
  }

  lemma InspectsFirst(pol: Policy, g: World, proc: Process, a: Answers)
    requires Sound(pol, g.flows) && DirsOwned(g.flows, g.dirs) && proc.key in g.flows && g.flows[proc.key].Active()
    requires Acceptable(g.flows[proc.key].contract, a)
    requires forall j | j in g.flows :: !Owns(g.flows[j], pol.RelOf(proc.slug))
    ensures Inspect(pol, g, proc, a) == Fresh(a.current.value)
  {
    SoundRecord(pol, g.flows, proc.key);
    DirHasOwner(g.flows, g.dirs, pol.RelOf(proc.slug));
    hide Sound, DirsOwned, Consistent, Owns, DiffSnapshots, Safe;
  }

  lemma ReservesFirst(pol: Policy, g: World, q: nat, rec: Record, current: Snapshot)
    requires Sound(pol, g.flows) && q in g.procs && g.procs[q].key in g.flows && g.flows[g.procs[q].key] == rec
    requires rec.Active() && g.procs[q].seen == Some(rec) && g.procs[q].current == Some(current)
    requires pol.slugOk(g.procs[q].slug)
             && AllCanonical(pol, DiffSnapshots(rec.contract.baseline, current).changedPaths)
    ensures ActReserve(pol, g, q)
            == SetStage(g.(flows := WithReservation(g.flows, g.procs[q].key,
                                                    ReservationFor(pol, g.procs[q], rec, current))),
                        q, g.procs[q].(stage := MakingDir))
  {
    SoundRecord(pol, g.flows, g.procs[q].key);
    hide Sound, Safe;
  }

  lemma FreshActs(pol: Policy, g: World, q: nat, a: Answers, current: Snapshot)
    requires q in g.procs && g.procs[q].stage == Inspecting && g.procs[q].key in g.flows
    requires Inspect(pol, g, g.procs[q], a) == Fresh(current)
    ensures Act(pol, g, q, a)
            == SetStage(g, q, g.procs[q].(stage := Reserving, seen := Some(g.flows[g.procs[q].key]),
                current := Some(current)))
  {
    hide Inspect;
  }

  lemma ReservingActs(pol: Policy, g: World, q: nat, a: Answers)
    requires q in g.procs && g.procs[q].stage == Reserving
    ensures Act(pol, g, q, a) == ActReserve(pol, g, q)
  {
    hide ActReserve;
  }

  function FirstProcess(g: World, k: Key, slug: string, now: nat, current: Snapshot): Process
    requires k in g.flows
  {
    Process(k, slug, now, Reserving, false, Some(g.flows[k]), Some(current))
  }

  // The world after beginning, inspecting and reserving.
  function FirstReserved(pol: Policy, g: World, k: Key, slug: string, q: nat, now: nat, current: Snapshot): World
    requires k in g.flows
  {
    var proc := FirstProcess(g, k, slug, now, current);
    SetStage(Begun(g, k, proc.slug, q, now)
               .(flows := WithReservation(g.flows, k, ReservationFor(pol, proc, g.flows[k], current))),
             q, proc.(stage := MakingDir))
  }

  // Two undisturbed steps lead from one world to the other.
  predicate TwoActs(pol: Policy, g: World, q: nat, a: Answers, after: World) {
    q in g.procs && q in Act(pol, g, q, a).procs && Act(pol, Act(pol, g, q, a), q, a) == after
  }

  lemma CanSays(pol: Policy, g: World, k: Key, asked: string, q: nat, a: Answers)
    requires CanPromote(pol, g, k, asked, q, a)
    ensures var c := g.flows[k].contract; var slug := Slug(c, asked);
            && pol.slugOk(slug) && Acceptable(c, a) && a.sessionOk && a.topologyOk && a.current.Some?
            && (forall j | j in g.flows :: !Owns(g.flows[j], pol.RelOf(slug)))
            && AllCanonical(pol, DiffSnapshots(c.baseline, a.current.value).changedPaths)
  {
    hide DiffSnapshots, Owns;
  }

  lemma BegunReserves(pol: Policy, g: World, k: Key, asked: string, q: nat, now: nat, a: Answers)
    requires Sound(pol, g.flows) && DirsOwned(g.flows, g.dirs) && CanPromote(pol, g, k, asked, q, a)
    ensures a.current.Some?
            && TwoActs(pol, Begun(g, k, Slug(g.flows[k].contract, asked), q, now), q, a,
                       FirstReserved(pol, g, k, Slug(g.flows[k].contract, asked), q, now, a.current.value))
  {
    CanSays(pol, g, k, asked, q, a);
    hide *;
    var slug := Slug(g.flows[k].contract, asked);
    var begun := Begun(g, k, slug, q, now);
    var seen := SetStage(begun, q, FirstProcess(g, k, slug, now, a.current.value));
    BegunFields(g, k, slug, q, now, a.current.value);
    InspectsFirst(pol, begun, begun.procs[q], a);
    FreshActs(pol, begun, q, a, a.current.value);
    ReservesFirst(pol, seen, q, g.flows[k], a.current.value);
    ReservingActs(pol, seen, q, a);
    ReservedFields(pol, g, k, slug, q, now, a.current.value);
    TwoActsIs(pol, begun, q, a, seen);
  }

  lemma TwoActsIs(pol: Policy, g: World, q: nat, a: Answers, mid: World)
    requires q in g.procs && Act(pol, g, q, a) == mid && q in mid.procs
    ensures TwoActs(pol, g, q, a, Act(pol, mid, q, a))
  {
    hide Act;
  }

  lemma BegunFields(g: World, k: Key, slug: string, q: nat, now: nat, current: Snapshot)
    requires k in g.flows && g.flows[k].Active()
    ensures var begun := Begun(g, k, slug, q, now);
            var seen := SetStage(begun, q, FirstProcess(g, k, slug, now, current));
            && begun.flows == g.flows && begun.dirs == g.dirs && q in begun.procs
            && begun.procs[q].key == k && begun.procs[q].slug == slug && begun.procs[q].stage == Inspecting
            && seen == SetStage(begun, q,
                begun.procs[q].(stage := Reserving, seen := Some(g.flows[k]), current := Some(current)))
            && seen.flows == g.flows && q in seen.procs && seen.procs[q] == FirstProcess(g, k, slug, now, current)
            && seen.procs[q].key == k && seen.procs[q].slug == slug && seen.procs[q].stage == Reserving
            && seen.procs[q].seen == Some(g.flows[k]) && seen.procs[q].current == Some(current)
  {
  }

  lemma ReservedFields(pol: Policy, g: World, k: Key, slug: string, q: nat, now: nat, current: Snapshot)
    requires k in g.flows
    ensures var seen := SetStage(Begun(g, k, slug, q, now), q, FirstProcess(g, k, slug, now, current));
            && q in seen.procs && k in seen.flows
            && SetStage(seen.(flows := WithReservation(seen.flows, k,
                ReservationFor(pol, seen.procs[q], g.flows[k], current))),
                        q, seen.procs[q].(stage := MakingDir))
               == FirstReserved(pol, g, k, slug, q, now, current)
  {
    hide WithReservation, ReservationFor;
  }

  /** An active flow whose change nobody owns is reserved from what its inspection observed. */
  lemma FirstReserves(pol: Policy, g: World, k: Key, asked: string, q: nat, now: nat, a: Answers)
    requires Inv(pol, g) && CanPromote(pol, g, k, asked, q, a)
    ensures a.current.Some?
            && TwoActs(pol, Begin(pol, g, q, k, asked, now), q, a,
                       FirstReserved(pol, g, k, Slug(g.flows[k].contract, asked), q, now, a.current.value))
  {
    hide *;
    InvParts(pol, g);
    BeginsFirst(pol, g, k, asked, q, now, a);
    BegunReserves(pol, g, k, asked, q, now, a);
  }

  lemma TwoActsKeep(pol: Policy, g: World, q: nat, a: Answers, after: World)
    requires Inv(pol, g) && TwoActs(pol, g, q, a, after) && q in after.procs
    ensures Inv(pol, after) && Drive(pol, g, q, a) == Drive(pol, after, q, a)
  {
    hide Inv, Act;
    ActKeeps(pol, g, q, a);
    ActProgress(pol, g, q, a);
    ActKeeps(pol, Act(pol, g, q, a), q, a);
    ActProgress(pol, Act(pol, g, q, a), q, a);
  }

  /** Left alone, a first promotion ends promoted with what it reserved. */
  lemma FirstCompletes(pol: Policy, g: World, k: Key, asked: string, q: nat, now: nat, a: Answers)
    requires Inv(pol, g) && CanPromote(pol, g, k, asked, q, a)
    requires a.current.Some? && a.terminal.Some? && DiffSnapshots(a.current.value, a.terminal.value).Quiet()
             && Safe(a.terminal.value)
    ensures var slug := Slug(g.flows[k].contract, asked);
            Ended(pol, FirstReserved(pol, g, k, slug, q, now, a.current.value), k, pol.RelOf(slug),
                  Drive(pol, Begin(pol, g, q, k, asked, now), q, a))
  {
    CanSays(pol, g, k, asked, q, a);
    hide *;
    var slug := Slug(g.flows[k].contract, asked);
    var begun, reserved := Begin(pol, g, q, k, asked, now), FirstReserved(pol, g, k, slug, q, now, a.current.value);
    FirstReserves(pol, g, k, asked, q, now, a);
    BeginKeeps(pol, g, q, k, asked, now);
    ReservedProcess(pol, g, k, slug, q, now, a.current.value);
    TwoActsKeep(pol, begun, q, a, reserved);
    QuietTerminal(reserved.procs[q], a);
    DriveCompletes(pol, reserved, q, a);
  }

  lemma QuietTerminal(proc: Process, a: Answers)
    requires a.topologyOk && a.sessionOk && a.terminal.Some? && a.current.Some? && proc.current == a.current
    requires DiffSnapshots(a.current.value, a.terminal.value).Quiet() && Safe(a.terminal.value)
    ensures TerminalQuiet(proc, a)
  {
    hide DiffSnapshots, Safe;
  }

  lemma ReservedProcess(pol: Policy, g: World, k: Key, slug: string, q: nat, now: nat, current: Snapshot)
    requires k in g.flows
    ensures var reserved := FirstReserved(pol, g, k, slug, q, now, current);
            && q in reserved.procs && reserved.procs[q].stage == MakingDir && Order(MakingDir) == 2
            && reserved.procs[q].key == k && reserved.procs[q].slug == slug
            && reserved.procs[q].current == Some(current) && reserved.dirs == g.dirs
            && k in reserved.flows && reserved.flows[k].reservation.Some?
  {
    hide ReservationFor;
  }

  // The third and fourth step make the directory and create the temporary file of the origin.
  lemma OriginWrite(pol: Policy, g: World, q: nat, a: Answers)
    requires q in g.procs && g.procs[q].stage == MakingDir && pol.RelOf(g.procs[q].slug) !in g.dirs
    requires g.procs[q].key in g.flows && g.flows[g.procs[q].key].reservation.Some?
    ensures exists inside :: TwoActs(pol, g, q, a, inside) && q in inside.procs && inside.procs[q].stage == OriginSave
  {
    hide ActSettle, ActReserve, Inspect, AfterInspect;
    var rel := pol.RelOf(g.procs[q].slug);
    var made := ActMakeDir(g, q, rel);
    assert Act(pol, g, q, a) == made;
    assert made.dirs[rel] == BARE && made.procs[q].stage == OriginTemp;
    var inside := ActAdvance(made, q, rel, g.flows[g.procs[q].key].reservation.value.origin);
    assert Act(pol, made, q, a) == inside;
    assert TwoActs(pol, g, q, a, inside);
  }

  /** A crash that blocks the retry is reachable: four steps stand inside the atomic write of the origin. */
  lemma SomeCrashBlocks(pol: Policy, g: World, k: Key, asked: string, q: nat, now: nat, a: Answers)
    requires Inv(pol, g) && CanPromote(pol, g, k, asked, q, a)
    ensures exists reserved, inside ::
              && TwoActs(pol, Begin(pol, g, q, k, asked, now), q, a, reserved) && TwoActs(pol, reserved, q, a, inside)
              && q in inside.procs && IsSave(inside.procs[q].stage) && Inv(pol, inside)
  {
    CanSays(pol, g, k, asked, q, a);
    assert forall s :: s == OriginSave ==> IsSave(s);
    hide *;
    var slug := Slug(g.flows[k].contract, asked);
    var reserved := FirstReserved(pol, g, k, slug, q, now, a.current.value);
    FirstReserves(pol, g, k, asked, q, now, a);
    BeginKeeps(pol, g, q, k, asked, now);
    InvParts(pol, g);
    DirHasOwner(g.flows, g.dirs, pol.RelOf(slug));
    ReservedProcess(pol, g, k, slug, q, now, a.current.value);
    TwoActsKeep(pol, Begin(pol, g, q, k, asked, now), q, a, reserved);
    OriginWrite(pol, reserved, q, a);
    var inside :| TwoActs(pol, reserved, q, a, inside) && q in inside.procs && inside.procs[q].stage == OriginSave;
    TwoActsKeep(pol, reserved, q, a, inside);
  }
}
