/** What every interleaving of promoting processes, crashes and store calls keeps. */
module FlowPromotionInv {
  import opened Common
  import opened FlowSnapshot
  import opened FlowStore
  import opened FlowPromotion

  predicate Reserved(flows: Store, k: Key, rel: string) {
    k in flows && flows[k].reservation.Some? && flows[k].reservation.value.rel == rel
  }

  // No two flows have reserved the same change.
  predicate OwnedOnce(flows: Store) {
    forall j, k | j in flows && k in flows && flows[j].reservation.Some? && flows[k].reservation.Some?
                  && flows[j].reservation.value.rel == flows[k].reservation.value.rel :: j == k
  }

  // Every process holds the lock of its slug, and every lock has a living owner.
  predicate Locked(pol: Policy, locks: map<string, nat>, procs: map<nat, Process>) {
    && (forall p | p in procs :: procs[p].slug in locks && locks[procs[p].slug] == p && pol.slugOk(procs[p].slug))
    && (forall s | s in locks :: locks[s] in procs && procs[locks[s]].slug == s)
  }

  // What a directory of this reservation can hold: nothing but temporaries, or the reserved origin and more.
  predicate DirFits(d: Dir, r: Reservation) {
    && Stray !in d.files
    && (d.origin.None? ==> d.files == {} && !d.enriched)
    && (d.origin.Some? ==> d.origin.value == r.origin)
  }

  ghost predicate DirOwned(flows: Store, rel: string, d: Dir) {
    exists k :: Reserved(flows, k, rel) && DirFits(d, flows[k].reservation.value)
  }

  ghost predicate DirsOwned(flows: Store, dirs: map<string, Dir>) {
    forall rel | rel in dirs :: DirOwned(flows, rel, dirs[rel])
  }

  predicate IsSave(s: Stage) {
    s == OriginSave || s == BaseSave || s == EnrichSave
  }

  // What has been written when a process comes to this stage.
  predicate Reached(d: Dir, s: Stage) {
    && d.temps == (if IsSave(s) then 1 else 0)
    && (s == OriginSave ==> d.origin.None?)
    && (Order(s) >= 5 ==> d.origin.Some?)
    && (Order(s) >= 6 ==> Proposal in d.files)
    && (Order(s) >= 7 ==> TaskList in d.files)
    && (Order(s) >= 9 ==> Design in d.files)
    && (Order(s) >= 14 ==> d.enriched)
  }

  predicate Holds(pol: Policy, flows: Store, proc: Process) {
    && Reserved(flows, proc.key, pol.RelOf(proc.slug)) && flows[proc.key].reservation.value.slug == proc.slug
    && flows[proc.key].promotion.None? && proc.current.Some?
  }

  predicate StageOk(pol: Policy, flows: Store, dirs: map<string, Dir>, proc: Process) {
    var rel := pol.RelOf(proc.slug);
    && proc.key in flows
    && (proc.stage == Reserving ==>
          && proc.seen.Some? && proc.current.Some? && proc.seen.value.contract == flows[proc.key].contract
          && forall j | j in flows :: !Owns(flows[j], rel))
    && (Order(proc.stage) >= 2 ==> Holds(pol, flows, proc))
    && (proc.stage == MakingDir ==> rel in dirs ==> dirs[rel].temps == 0)
    && (Order(proc.stage) >= 3 ==> rel in dirs && Reached(dirs[rel], proc.stage))
  }

  predicate Stages(pol: Policy, flows: Store, dirs: map<string, Dir>, procs: map<nat, Process>) {
    forall p | p in procs :: StageOk(pol, flows, dirs, procs[p])
  }

  predicate Complete(d: Dir) {
    d.origin.Some? && {Proposal, TaskList, Design} <= d.files && d.enriched && d.temps == 0
  }

  predicate Promoted(flows: Store, dirs: map<string, Dir>) {
    forall k | k in flows && flows[k].promotion.Some? ::
      flows[k].promotion.value.rel in dirs && Complete(dirs[flows[k].promotion.value.rel])
  }

  ghost predicate Inv(pol: Policy, g: World) {
    && Sound(pol, g.flows) && OwnedOnce(g.flows) && Locked(pol, g.locks, g.procs)
    && DirsOwned(g.flows, g.dirs) && Stages(pol, g.flows, g.dirs, g.procs) && Promoted(g.flows, g.dirs)
  }

  lemma RelInjective(pol: Policy, a: string, b: string)
    requires pol.RelOf(a) == pol.RelOf(b)
    ensures a == b
  {
    var f := pol.changesFolder;
    assert a == pol.RelOf(a)[|f| + 1..] && b == pol.RelOf(b)[|f| + 1..];
  }

  lemma Parts(pol: Policy, g: World, p: nat)
    requires Inv(pol, g) && p in g.procs
    ensures Sound(pol, g.flows) && OwnedOnce(g.flows) && DirsOwned(g.flows, g.dirs)
    ensures StageOk(pol, g.flows, g.dirs, g.procs[p])
  {
    hide Sound, OwnedOnce, DirsOwned, StageOk, Promoted, Locked;
  }

  // Processes have different slugs, and so different directories.
  lemma Apart(pol: Policy, g: World, p: nat, q: nat)
    requires Locked(pol, g.locks, g.procs) && p in g.procs && q in g.procs && p != q
    ensures pol.RelOf(g.procs[p].slug) != pol.RelOf(g.procs[q].slug)
  {
    if pol.RelOf(g.procs[p].slug) == pol.RelOf(g.procs[q].slug) {
      RelInjective(pol, g.procs[p].slug, g.procs[q].slug);
    }
  }

  // ---------- processes come and go ----------

  lemma ReleaseKeeps(pol: Policy, g: World, p: nat)
    requires Inv(pol, g) && p in g.procs
    ensures Inv(pol, Release(g, p))
  {
    hide Sound, OwnedOnce, StageOk, DirsOwned, Promoted;
  }

  lemma BeginKeeps(pol: Policy, g: World, p: nat, k: Key, asked: string, now: nat)
    requires Inv(pol, g)
    ensures Inv(pol, Begin(pol, g, p, k, asked, now))
  {
    hide Inv, Consistent;
    if p !in g.procs && BeginRefusal(pol, g, k, asked).None? {
      var slug := SlugFor(g.flows[k], asked);
      hide SlugFor;
      AddProcess(pol, g, p, Process(k, slug, now, Inspecting, false, None, None));
    }
  }

  lemma AddLocked(pol: Policy, locks: map<string, nat>, procs: map<nat, Process>, p: nat, proc: Process)
    requires Locked(pol, locks, procs) && p !in procs && proc.slug !in locks && pol.slugOk(proc.slug)
    ensures Locked(pol, locks[proc.slug := p], procs[p := proc])
  {
  }

  lemma AddProcess(pol: Policy, g: World, p: nat, proc: Process)
    requires Inv(pol, g) && p !in g.procs && proc.slug !in g.locks && pol.slugOk(proc.slug) && proc.key in g.flows
    requires proc.stage == Inspecting
    ensures Inv(pol, g.(locks := g.locks[proc.slug := p], procs := g.procs[p := proc]))
  {
    assert StageOk(pol, g.flows, g.dirs, proc);
    AddLocked(pol, g.locks, g.procs, p, proc);
    hide Sound, OwnedOnce, StageOk, DirsOwned, Promoted, Locked;
  }

  // A process changes only what it knows.
  lemma SetProcess(pol: Policy, g: World, p: nat, proc: Process)
    requires Inv(pol, g) && p in g.procs && proc.slug == g.procs[p].slug
    requires StageOk(pol, g.flows, g.dirs, proc)
    ensures Inv(pol, SetStage(g, p, proc))
  {
    hide Sound, OwnedOnce, StageOk, DirsOwned, Promoted;
  }

  // What the checks have established when they let a process through.
  lemma InspectSays(pol: Policy, g: World, proc: Process, a: Answers)
    ensures var i := Inspect(pol, g, proc, a); var rel := pol.RelOf(proc.slug);
            i.Fresh? || i.Resume? ==>
              && proc.key in g.flows && g.flows[proc.key].promotion.None? && !OwnedByOther(g.flows, proc.key, rel)
              && (i.Fresh? ==> g.flows[proc.key].Active())
              && (i.Resume? ==>
                    Reserved(g.flows, proc.key, rel) && g.flows[proc.key].reservation.value.slug == proc.slug
                    && (rel in g.dirs ==> Resumable(g.dirs[rel], g.flows[proc.key].contract)))
  {
    hide Consistent, Resumable, OwnedByOther, DiffSnapshots, Safe;
  }

  lemma InspectKeeps(pol: Policy, g: World, p: nat, a: Answers)
    requires Inv(pol, g) && p in g.procs && g.procs[p].stage == Inspecting
    ensures Inv(pol, AfterInspect(g, p, Inspect(pol, g, g.procs[p], a)))
  {
    var proc := g.procs[p];
    var i := Inspect(pol, g, proc, a);
    InspectSays(pol, g, proc, a);
    ReleaseKeeps(pol, g, p);
    hide Inspect, Inv, OwnedByOther, Resumable;
    if i.Fresh? {
      FreshStage(pol, g, proc, i.current);
      SetProcess(pol, g, p, proc.(stage := Reserving, seen := Some(g.flows[proc.key]), current := Some(i.current)));
    } else if i.Resume? {
      ResumeStage(pol, g, proc, i.current);
      SetProcess(pol, g, p, proc.(stage := MakingDir, current := Some(i.current)));
    }
  }

  lemma FreshStage(pol: Policy, g: World, proc: Process, current: Snapshot)
    requires proc.key in g.flows && g.flows[proc.key].Active()
    requires !OwnedByOther(g.flows, proc.key, pol.RelOf(proc.slug))
    ensures StageOk(pol, g.flows, g.dirs,
                    proc.(stage := Reserving, seen := Some(g.flows[proc.key]), current := Some(current)))
  {
  }

  lemma ResumeStage(pol: Policy, g: World, proc: Process, current: Snapshot)
    requires var rel := pol.RelOf(proc.slug);
             && Reserved(g.flows, proc.key, rel) && g.flows[proc.key].reservation.value.slug == proc.slug
             && g.flows[proc.key].promotion.None?
             && (rel in g.dirs ==> Resumable(g.dirs[rel], g.flows[proc.key].contract))
    ensures StageOk(pol, g.flows, g.dirs, proc.(stage := MakingDir, current := Some(current)))
  {
  }

  // ---------- the store changes ----------

  // Reservations, promotions and contracts stay; new flows have none.
  predicate FlowsQuiet(before: Store, after: Store) {
    && (forall k | k in before :: k in after && after[k].contract == before[k].contract
          && after[k].reservation == before[k].reservation && after[k].promotion == before[k].promotion)
    && (forall k | k in after && k !in before :: after[k].reservation.None? && after[k].promotion.None?)
  }

  lemma QuietStage(pol: Policy, before: Store, after: Store, dirs: map<string, Dir>, proc: Process)
    requires FlowsQuiet(before, after) && StageOk(pol, before, dirs, proc)
    ensures StageOk(pol, after, dirs, proc)
  {
    hide Reached;
  }

  // A directory keeps its owner where reservations stay.
  lemma DirsKeepOwners(before: Store, after: Store, dirs: map<string, Dir>)
    requires DirsOwned(before, dirs)
    requires forall k | k in before && before[k].reservation.Some? ::
               k in after && after[k].reservation == before[k].reservation
    ensures DirsOwned(after, dirs)
  {
    forall rel | rel in dirs ensures DirOwned(after, rel, dirs[rel]) {
      assert DirOwned(before, rel, dirs[rel]);
      var k :| Reserved(before, k, rel) && DirFits(dirs[rel], before[k].reservation.value);
      assert Reserved(after, k, rel);
    }
  }

  lemma QuietKeeps(pol: Policy, g: World, after: Store)
    requires Inv(pol, g) && FlowsQuiet(g.flows, after) && Sound(pol, after)
    ensures Inv(pol, g.(flows := after))
  {
    hide Sound, OwnedOnce, Locked, DirsOwned, StageOk, Promoted, FlowsQuiet;
    QuietParts(g.flows, after, g.dirs);
    forall p | p in g.procs ensures StageOk(pol, after, g.dirs, g.procs[p]) {
      QuietStage(pol, g.flows, after, g.dirs, g.procs[p]);
    }
  }

  lemma QuietParts(before: Store, after: Store, dirs: map<string, Dir>)
    requires OwnedOnce(before) && DirsOwned(before, dirs) && Promoted(before, dirs) && FlowsQuiet(before, after)
    ensures OwnedOnce(after) && DirsOwned(after, dirs) && Promoted(after, dirs)
  {
    hide DirsOwned, Complete;
    DirsKeepOwners(before, after, dirs);
  }

  lemma CallIsQuiet(pol: Policy, st: Store, call: Call)
    requires !call.Reserve? && !call.WritePromotion?
    ensures FlowsQuiet(st, Next(pol, st, call))
  {
    hide Consistent, ValidAttempt, ValidContract, ValidReceipt, ReceiptMatches, SessionSound, SessionBusy;
  }

  lemma ElsewhereKeeps(pol: Policy, g: World, call: Call)
    requires Inv(pol, g) && !call.Reserve? && !call.WritePromotion?
    ensures Inv(pol, g.(flows := Next(pol, g.flows, call)))
  {
    NextKeeps(pol, g.flows, call);
    CallIsQuiet(pol, g.flows, call);
    hide Next, FlowsQuiet;
    QuietKeeps(pol, g, Next(pol, g.flows, call));
  }

  // What the store does with a reservation or a promotion it accepts.
  lemma ReserveSays(pol: Policy, st: Store, k: Key, r: Reservation)
    requires Apply(pol, st, Reserve(k, r)).Done?
    ensures k in st && st[k].Open() && (st[k].reservation.Some? ==> st[k].reservation.value == r)
    ensures Apply(pol, st, Reserve(k, r)).store == st[k := st[k].(reservation := Some(r))]
  {
    hide Consistent, ValidReservation, ReservationMatches;
  }

  lemma PromotionSays(pol: Policy, st: Store, k: Key, p: Promotion)
    requires Apply(pol, st, WritePromotion(k, p)).Done?
    ensures k in st && st[k].reservation.Some? && p == PromotionOf(k, st[k].reservation.value)
    ensures Apply(pol, st, WritePromotion(k, p)).store == st[k := st[k].(promotion := Some(p))]
  {
    hide Consistent;
  }

  lemma ReservedStage(pol: Policy, before: Store, dirs: map<string, Dir>, q: Process, k: Key, r: Reservation)
    requires k in before && before[k].Active() && StageOk(pol, before, dirs, q) && r.rel != pol.RelOf(q.slug)
    ensures StageOk(pol, WithReservation(before, k, r), dirs, q)
  {
    hide Reached;
  }

  function WithReservation(flows: Store, k: Key, r: Reservation): Store
    requires k in flows
  {
    flows[k := flows[k].(reservation := Some(r))]
  }

  lemma ReserveParts(flows: Store, dirs: map<string, Dir>, k: Key, r: Reservation)
    requires OwnedOnce(flows) && DirsOwned(flows, dirs) && Promoted(flows, dirs) && k in flows && flows[k].Active()
    requires forall j | j in flows :: !Owns(flows[j], r.rel)
    ensures OwnedOnce(WithReservation(flows, k, r)) && DirsOwned(WithReservation(flows, k, r), dirs)
    ensures Promoted(WithReservation(flows, k, r), dirs) && r.rel !in dirs
  {
    hide DirsOwned, Complete;
    DirsKeepOwners(flows, WithReservation(flows, k, r), dirs);
    DirHasOwner(flows, dirs, r.rel);
  }

  lemma DirHasOwner(flows: Store, dirs: map<string, Dir>, rel: string)
    requires DirsOwned(flows, dirs)
    ensures rel in dirs ==> exists k :: k in flows && Owns(flows[k], rel)
  {
    if rel in dirs {
      assert DirOwned(flows, rel, dirs[rel]);
      var k :| Reserved(flows, k, rel) && DirFits(dirs[rel], flows[k].reservation.value);
      assert Owns(flows[k], rel);
    }
  }

  lemma OwnReservedStage(pol: Policy, flows: Store, dirs: map<string, Dir>, proc: Process, r: Reservation)
    requires proc.key in flows && flows[proc.key].Active() && proc.current.Some? && r.rel !in dirs
    requires r.slug == proc.slug && r.rel == pol.RelOf(proc.slug)
    ensures StageOk(pol, WithReservation(flows, proc.key, r), dirs, proc.(stage := MakingDir))
  {
  }

  lemma NewReservation(pol: Policy, g: World, p: nat, r: Reservation)
    requires Inv(pol, g) && p in g.procs && g.procs[p].current.Some? && g.procs[p].key in g.flows
    requires var proc := g.procs[p];
             && r.slug == proc.slug && r.rel == pol.RelOf(proc.slug) && g.flows[proc.key].Active()
             && Sound(pol, WithReservation(g.flows, proc.key, r))
    requires forall j | j in g.flows :: !Owns(g.flows[j], r.rel)
    ensures var proc := g.procs[p];
            Inv(pol, SetStage(g.(flows := WithReservation(g.flows, proc.key, r)), p, proc.(stage := MakingDir)))
  {
    SetKeepsLocked(pol, g, p, g.procs[p].(stage := MakingDir));
    hide StageOk, OwnedOnce, DirsOwned, Owns, Sound, Promoted, WithReservation, Locked;
    var proc := g.procs[p];
    var flows := WithReservation(g.flows, proc.key, r);
    ReserveParts(g.flows, g.dirs, proc.key, r);
    OwnReservedStage(pol, g.flows, g.dirs, proc, r);
    forall q | q in g.procs && q != p ensures StageOk(pol, flows, g.dirs, g.procs[q]) {
      Apart(pol, g, p, q);
      ReservedStage(pol, g.flows, g.dirs, g.procs[q], proc.key, r);
    }
  }

  lemma ReservingSays(pol: Policy, flows: Store, dirs: map<string, Dir>, proc: Process)
    requires StageOk(pol, flows, dirs, proc) && proc.stage == Reserving
    ensures proc.key in flows && proc.seen.Some? && proc.current.Some?
    ensures var r := ReservationFor(pol, proc, proc.seen.value, proc.current.value);
            r.rel == pol.RelOf(proc.slug) && r.slug == proc.slug && forall j | j in flows :: !Owns(flows[j], r.rel)
  {
    hide DiffSnapshots;
  }

  lemma ReserveKeeps(pol: Policy, g: World, p: nat)
    requires Inv(pol, g) && p in g.procs && g.procs[p].stage == Reserving
    ensures Inv(pol, ActReserve(pol, g, p))
  {
    hide Inv, StageOk, Sound, OwnedOnce, DirsOwned, Apply, ReservationFor, Next;
    var proc := g.procs[p];
    Parts(pol, g, p);
    ReservingSays(pol, g.flows, g.dirs, proc);
    ReleaseKeeps(pol, g, p);
    var r := ReservationFor(pol, proc, proc.seen.value, proc.current.value);
    var call := Reserve(proc.key, r);
    if Apply(pol, g.flows, call).Done? {
      NextKeeps(pol, g.flows, call);
      NextIsDone(pol, g.flows, call);
      ReserveSays(pol, g.flows, proc.key, r);
      assert !Owns(g.flows[proc.key], r.rel);
      NewReservation(pol, g, p, r);
    }
  }

  lemma NextIsDone(pol: Policy, st: Store, call: Call)
    requires Apply(pol, st, call).Done?
    ensures Next(pol, st, call) == Apply(pol, st, call).store
  {
    hide Apply;
  }

  lemma PromotedStage(pol: Policy, before: Store, dirs: map<string, Dir>, q: Process, k: Key)
    requires k in before && before[k].reservation.Some? && before[k].reservation.value.rel != pol.RelOf(q.slug)
    requires StageOk(pol, before, dirs, q)
    ensures StageOk(pol, WithPromotion(before, k), dirs, q)
  {
    hide Reached;
  }

  function WithPromotion(flows: Store, k: Key): Store
    requires k in flows && flows[k].reservation.Some?
  {
    flows[k := flows[k].(promotion := Some(PromotionOf(k, flows[k].reservation.value)))]
  }

  lemma PromoteParts(flows: Store, dirs: map<string, Dir>, k: Key)
    requires OwnedOnce(flows) && DirsOwned(flows, dirs) && Promoted(flows, dirs)
    requires k in flows && flows[k].reservation.Some?
    requires var rel := flows[k].reservation.value.rel; rel in dirs && Complete(dirs[rel])
    ensures OwnedOnce(WithPromotion(flows, k)) && DirsOwned(WithPromotion(flows, k), dirs)
    ensures Promoted(WithPromotion(flows, k), dirs)
  {
    PromoteOwners(flows, k);
    hide OwnedOnce;
    DirsKeepOwners(flows, WithPromotion(flows, k), dirs);
    hide DirsOwned, Complete;
  }

  lemma PromoteOwners(flows: Store, k: Key)
    requires OwnedOnce(flows) && k in flows && flows[k].reservation.Some?
    ensures OwnedOnce(WithPromotion(flows, k))
  {
  }

  lemma NewPromotion(pol: Policy, g: World, p: nat)
    requires Inv(pol, g) && p in g.procs && g.procs[p].key in g.flows
    requires var k := g.procs[p].key;
             && Reserved(g.flows, k, pol.RelOf(g.procs[p].slug)) && Sound(pol, WithPromotion(g.flows, k))
             && g.flows[k].reservation.value.rel in g.dirs && Complete(g.dirs[g.flows[k].reservation.value.rel])
    ensures Inv(pol, Release(g.(flows := WithPromotion(g.flows, g.procs[p].key)), p))
  {
    ReleaseKeeps(pol, g, p);
    hide StageOk, DirsOwned, OwnedOnce, Sound, Promoted, WithPromotion, Locked, Complete;
    var proc, k := g.procs[p], g.procs[p].key;
    var flows := WithPromotion(g.flows, k);
    PromoteParts(g.flows, g.dirs, k);
    forall q | q in g.procs && q != p ensures StageOk(pol, flows, g.dirs, g.procs[q]) {
      Apart(pol, g, p, q);
      PromotedStage(pol, g.flows, g.dirs, g.procs[q], k);
    }
  }

  lemma SettlingIsComplete(pol: Policy, g: World, proc: Process)
    requires StageOk(pol, g.flows, g.dirs, proc) && proc.stage == Settling
    ensures var rel := pol.RelOf(proc.slug); Reserved(g.flows, proc.key, rel) && rel in g.dirs && Complete(g.dirs[rel])
  {
  }

  lemma SettleKeeps(pol: Policy, g: World, p: nat, a: Answers)
    requires Inv(pol, g) && p in g.procs && g.procs[p].stage == Settling
    ensures g.procs[p].key in g.flows && g.flows[g.procs[p].key].reservation.Some?
            && Inv(pol, ActSettle(pol, g, p, g.flows[g.procs[p].key].reservation.value, a))
  {
    hide Inv, StageOk, Sound, OwnedOnce, DirsOwned, Apply, PromotionFrom, Next, TerminalQuiet, Complete;
    var proc := g.procs[p];
    Parts(pol, g, p);
    SettlingIsComplete(pol, g, proc);
    ReleaseKeeps(pol, g, p);
    var r := g.flows[proc.key].reservation.value;
    var pr := PromotionFrom(proc.key, r, r.origin);
    var call := WritePromotion(proc.key, pr);
    if Apply(pol, g.flows, call).Done? {
      NextKeeps(pol, g.flows, call);
      NextIsDone(pol, g.flows, call);
      PromotionSays(pol, g.flows, proc.key, pr);
      NewPromotion(pol, g, p);
    }
  }

  // ---------- the directories change ----------

  lemma PromotedElsewhere(pol: Policy, flows: Store, k: Key, rel: string)
    requires Sound(pol, flows) && OwnedOnce(flows) && Reserved(flows, k, rel) && flows[k].promotion.None?
    ensures forall j | j in flows && flows[j].promotion.Some? :: flows[j].promotion.value.rel != rel
  {
    forall j | j in flows && flows[j].promotion.Some? ensures flows[j].promotion.value.rel != rel {
      assert Consistent(pol, j, flows[j]);
    }
  }

  lemma DirParts(pol: Policy, flows: Store, dirs: map<string, Dir>, k: Key, rel: string, d: Dir)
    requires Sound(pol, flows) && OwnedOnce(flows) && DirsOwned(flows, dirs) && Promoted(flows, dirs)
    requires Reserved(flows, k, rel) && flows[k].promotion.None? && DirFits(d, flows[k].reservation.value)
    ensures DirsOwned(flows, dirs[rel := d]) && Promoted(flows, dirs[rel := d])
  {
    PromotedElsewhere(pol, flows, k, rel);
    assert DirOwned(flows, rel, d);
    hide Sound, OwnedOnce, Reserved, DirOwned, Complete, DirFits;
  }

  lemma OtherDirStage(pol: Policy, flows: Store, dirs: map<string, Dir>, rel: string, d: Dir, q: Process)
    requires StageOk(pol, flows, dirs, q) && pol.RelOf(q.slug) != rel
    ensures StageOk(pol, flows, dirs[rel := d], q)
  {
    hide Reached, Holds, Owns;
  }

  lemma DirKeeps(pol: Policy, g: World, p: nat, d: Dir, proc: Process, pointer: string, slugs: map<string, string>)
    requires Inv(pol, g) && p in g.procs && Holds(pol, g.flows, proc) && proc.slug == g.procs[p].slug
    requires DirFits(d, g.flows[proc.key].reservation.value)
    requires StageOk(pol, g.flows, g.dirs[pol.RelOf(proc.slug) := d], proc)
    ensures Inv(pol, SetStage(g.(dirs := g.dirs[pol.RelOf(proc.slug) := d], pointer := pointer, sessionSlugs := slugs),
                              p, proc))
  {
    SetKeepsLocked(pol, g, p, proc);
    assert Reserved(g.flows, proc.key, pol.RelOf(proc.slug)) && g.flows[proc.key].promotion.None?;
    hide StageOk, OwnedOnce, DirsOwned, Sound, Promoted, Holds, DirFits, Locked, Reserved;
    var rel := pol.RelOf(proc.slug);
    DirParts(pol, g.flows, g.dirs, proc.key, rel, d);
    forall q | q in g.procs && q != p ensures StageOk(pol, g.flows, g.dirs[rel := d], g.procs[q]) {
      Apart(pol, g, p, q);
      OtherDirStage(pol, g.flows, g.dirs, rel, d, g.procs[q]);
    }
  }

  lemma SetKeepsLocked(pol: Policy, g: World, p: nat, proc: Process)
    requires Locked(pol, g.locks, g.procs) && p in g.procs && proc.slug == g.procs[p].slug
    ensures Locked(pol, g.locks, g.procs[p := proc])
  {
  }

  // The directory at the name of a reservation fits that reservation.
  lemma OwnDirFits(flows: Store, dirs: map<string, Dir>, k: Key, rel: string)
    requires OwnedOnce(flows) && DirsOwned(flows, dirs) && Reserved(flows, k, rel) && rel in dirs
    ensures DirFits(dirs[rel], flows[k].reservation.value)
  {
    assert DirOwned(flows, rel, dirs[rel]);
    hide DirFits;
  }

  lemma MadeDir(pol: Policy, flows: Store, dirs: map<string, Dir>, proc: Process, d: Dir)
    requires StageOk(pol, flows, dirs, proc) && proc.stage == MakingDir && OwnedOnce(flows) && DirsOwned(flows, dirs)
    requires d == if pol.RelOf(proc.slug) in dirs then dirs[pol.RelOf(proc.slug)] else BARE
    ensures Holds(pol, flows, proc.(stage := OriginTemp)) && proc.key in flows && flows[proc.key].reservation.Some?
    ensures DirFits(d, flows[proc.key].reservation.value)
    ensures StageOk(pol, flows, dirs[pol.RelOf(proc.slug) := d], proc.(stage := OriginTemp))
  {
    hide OwnedOnce, DirsOwned;
    if pol.RelOf(proc.slug) in dirs {
      OwnDirFits(flows, dirs, proc.key, pol.RelOf(proc.slug));
    }
  }

  lemma MakeDirKeeps(pol: Policy, g: World, p: nat)
    requires Inv(pol, g) && p in g.procs && g.procs[p].stage == MakingDir
    ensures Inv(pol, ActMakeDir(g, p, pol.RelOf(g.procs[p].slug)))
  {
    hide Inv, StageOk, Sound, OwnedOnce, DirsOwned, DirFits, Holds, Reserved;
    var proc := g.procs[p];
    var rel := pol.RelOf(proc.slug);
    Parts(pol, g, p);
    var d := if rel in g.dirs then g.dirs[rel] else BARE;
    MadeDir(pol, g.flows, g.dirs, proc, d);
    DirKeeps(pol, g, p, d, proc.(stage := OriginTemp), g.pointer, g.sessionSlugs);
  }

  lemma AdvanceFits(d: Dir, s: Stage, first: bool, r: Reservation)
    requires 3 <= Order(s) <= 14 && DirFits(d, r) && Reached(d, s)
    ensures TempReady(d, s)
    ensures var n := Advance(d, s, first, r.origin);
            n.Some? && DirFits(n.value.0, r) && Reached(n.value.0, n.value.1) && Order(n.value.1) >= Order(s) + 1
  {
    AdvanceStays(d, s, first, r);
    AdvanceReaches(d, s, first, r);
  }

  lemma AdvanceStays(d: Dir, s: Stage, first: bool, r: Reservation)
    requires 3 <= Order(s) <= 14 && DirFits(d, r) && TempReady(d, s) && (Order(s) >= 5 ==> d.origin.Some?)
    ensures var n := Advance(d, s, first, r.origin); n.Some? && DirFits(n.value.0, r)
  {
  }

  lemma AdvanceReaches(d: Dir, s: Stage, first: bool, r: Reservation)
    requires 3 <= Order(s) <= 14 && Reached(d, s) && TempReady(d, s) && Advance(d, s, first, r.origin).Some?
    ensures var n := Advance(d, s, first, r.origin).value; Reached(n.0, n.1) && Order(n.1) >= Order(s) + 1
  {
  }

  lemma Advanced(pol: Policy, flows: Store, dirs: map<string, Dir>, proc: Process)
    requires StageOk(pol, flows, dirs, proc) && 3 <= Order(proc.stage) <= 14 && OwnedOnce(flows)
             && DirsOwned(flows, dirs)
    ensures var rel := pol.RelOf(proc.slug);
            && proc.key in flows && flows[proc.key].reservation.Some? && rel in dirs && TempReady(dirs[rel], proc.stage)
            && var r := flows[proc.key].reservation.value;
               var n := Advance(dirs[rel], proc.stage, proc.first, r.origin);
               && n.Some? && DirFits(n.value.0, r) && Order(n.value.1) > Order(proc.stage)
               && Holds(pol, flows, proc.(stage := n.value.1, first := n.value.2))
               && StageOk(pol, flows, dirs[rel := n.value.0], proc.(stage := n.value.1, first := n.value.2))
  {
    hide OwnedOnce, DirsOwned, Advance, Reached, DirFits;
    var rel := pol.RelOf(proc.slug);
    OwnDirFits(flows, dirs, proc.key, rel);
    AdvanceFits(dirs[rel], proc.stage, proc.first, flows[proc.key].reservation.value);
  }

  lemma AdvanceKeeps(pol: Policy, g: World, p: nat)
    requires Inv(pol, g) && p in g.procs && 3 <= Order(g.procs[p].stage) <= 14
    ensures g.procs[p].key in g.flows && g.flows[g.procs[p].key].reservation.Some?
            && Inv(pol, ActAdvance(g, p, pol.RelOf(g.procs[p].slug), g.flows[g.procs[p].key].reservation.value.origin))
  {
    hide Inv, StageOk, Sound, OwnedOnce, DirsOwned, DirFits, Advance, TempReady;
    var proc := g.procs[p];
    Parts(pol, g, p);
    Advanced(pol, g.flows, g.dirs, proc);
    var n := Advance(g.dirs[pol.RelOf(proc.slug)], proc.stage, proc.first,
        g.flows[proc.key].reservation.value.origin).value;
    DirKeeps(pol, g, p, n.0, proc.(stage := n.1, first := n.2),
             if proc.stage == Pointing then proc.slug else g.pointer,
             if proc.stage == Registering then g.sessionSlugs[proc.key.session := proc.slug] else g.sessionSlugs);
  }

  // ---------- every run ----------

  lemma ActKeeps(pol: Policy, g: World, p: nat, a: Answers)
    requires Inv(pol, g) && p in g.procs
    ensures Inv(pol, Act(pol, g, p, a))
  {
    hide Inv, Inspect, AfterInspect, ActReserve, ActMakeDir, ActSettle, ActAdvance;
    var stage := g.procs[p].stage;
    if stage == Inspecting {
      InspectKeeps(pol, g, p, a);
    } else if stage == Reserving {
      ReserveKeeps(pol, g, p);
    } else {
      if stage == MakingDir {
        MakeDirKeeps(pol, g, p);
      } else if stage == Settling {
        SettleKeeps(pol, g, p, a);
      } else {
        AdvanceKeeps(pol, g, p);
      }
      ReleaseKeeps(pol, g, p);
    }
  }

  lemma StepKeeps(pol: Policy, g: World, e: Event)
    requires Inv(pol, g) && Proper(e)
    ensures Inv(pol, Step(pol, g, e))
  {
    hide Inv, Act, Begin, Release, Next;
    match e
    case Beginning(p, k, asked, now) => BeginKeeps(pol, g, p, k, asked, now);
    case Acting(p, a) =>
      if p in g.procs {
        ActKeeps(pol, g, p, a);
      }
    case Crash(p) =>
      if p in g.procs {
        ReleaseKeeps(pol, g, p);
      }
    case Elsewhere(call) => ElsewhereKeeps(pol, g, call);
  }

  /** The invariant holds after every run from the empty world. */
  lemma {:induction false} HistoryKeeps(pol: Policy, events: seq<Event>)
    requires forall e | e in events :: Proper(e)
    ensures Inv(pol, History(pol, events))
  {
    if events != [] {
      hide Step, Inv, Proper;
      var n := |events| - 1;
      HistoryKeeps(pol, events[..n]);
      StepKeeps(pol, History(pol, events[..n]), events[n]);
    }
  }
}
