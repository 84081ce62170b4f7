/** What an undisturbed first promotion leaves, field by field, and exactly when its inspection lets it go on. */
module FlowRecord {
  import opened Common
  import opened FlowSnapshot
  import opened FlowStore
  import opened FlowFinish
  import opened FlowStoreLaws
  import opened FlowPromotion
  import opened FlowPromotionInv
  import opened FlowPromotionRuns
  import opened FlowVault

  // ---------- beginning and inspecting ----------

  /** A promotion begins exactly for a readable, open flow under a legal slug that is its own and whose lock is free. */
  lemma BeginExactly(pol: Policy, g: World, k: Key, asked: string, q: nat, now: nat)
    requires q !in g.procs
    ensures var after := Begin(pol, g, q, k, asked, now);
            if k in g.flows && Consistent(pol, k, g.flows[k]) && g.flows[k].receipt.None? && g.flows[k].promotion.None?
               && exists slug :: pol.slugOk(slug) && slug !in g.locks && IsItsSlug(g.flows[k], asked, slug)
            then exists slug :: IsItsSlug(g.flows[k], asked, slug)
                                && after == g.(
                                     locks := g.locks[slug := q],
                                     procs := g.procs[q := Process(k, slug, now, Inspecting, false, None, None)])
            else after == g
  {
    hide Consistent;
    if k in g.flows {
      var rec := g.flows[k];
      var slug := SlugFor(rec, asked);
      assert forall other :: IsItsSlug(rec, asked, other) ==> other == slug;
      assert IsItsSlug(rec, asked, slug) <==> rec.reservation.None? || asked == "" || asked == slug;
    }
  }

  // The slug of the reservation, which may be asked for again; without one the slug asked for, else the contract's.
  predicate IsItsSlug(rec: Record, asked: string, slug: string) {
    match rec.reservation
    case Some(r) => slug == r.slug && (asked == "" || asked == r.slug)
    case None => slug == if asked != "" then asked else rec.contract.slug
  }

  // The snapshot is taken in the same repository, with the same metadata, and is safe.
  ghost predicate Permits(c: Contract, a: Answers) {
    && a.sessionOk && a.topologyOk && a.current.Some?
    && var s := a.current.value;
    && s.root == c.baseline.root && s.metadata == c.baseline.metadata && s.hidden == c.baseline.hidden
    && s.hidden == [] && s.unsafeMetadata == [] && s.unsafeWorktree == [] && s.unsafePhysical == []
  }

  // Nobody else owns the change.
  ghost predicate OwnChange(g: World, k: Key, rel: string) {
    forall j | j in g.flows && j != k ::
      && (g.flows[j].reservation.Some? ==> g.flows[j].reservation.value.rel != rel)
      && (g.flows[j].promotion.Some? ==> g.flows[j].promotion.value.rel != rel)
  }

  /**
   The inspection lets a flow reserve exactly when it is active, nothing stands where its change would, and snapshot
   and session permit; it resumes a reservation exactly under the same slug, over an empty directory or one that holds
   this flow's own origin, nothing foreign and nothing half written. A HEAD that moved is no obstacle.
   */
  lemma InspectExactly(pol: Policy, g: World, proc: Process, a: Answers)
    requires proc.key in g.flows && Consistent(pol, proc.key, g.flows[proc.key])
    ensures var rec, rel, i := g.flows[proc.key], pol.RelOf(proc.slug), Inspect(pol, g, proc, a);
            && (i.Fresh? <==> && rec.receipt.None? && rec.promotion.None? && rec.reservation.None?
                              && OwnChange(g, proc.key, rel) && rel !in g.dirs && Permits(rec.contract, a))
            && (i.Resume? <==> && rec.receipt.None? && rec.promotion.None? && rec.reservation.Some?
                               && rec.reservation.value.slug == proc.slug && OwnChange(g, proc.key, rel)
                               && (rel in g.dirs ==> Untouched(g.dirs[rel], rec.contract)) && Permits(rec.contract, a))
            && (i.Already? <==> rec.promotion.Some?)
            && (i.Fresh? ==> i == Fresh(a.current.value)) && (i.Resume? ==> i == Resume(a.current.value))
  {
    var rec, rel := g.flows[proc.key], pol.RelOf(proc.slug);
    assert OwnedByOther(g.flows, proc.key, rel) <==> !OwnChange(g, proc.key, rel);
    hide OwnedByOther, OwnChange;
  }

  predicate Untouched(d: Dir, c: Contract) {
    if d.origin.Some? then Stray !in d.files && d.temps == 0
                           && d.origin.value.flow == c.key.flow && d.origin.value.contract == c
    else d.files == {} && d.temps == 0
  }

  // ---------- the record ----------

  // The reservation of this contract, from what was seen at that time.
  ghost predicate Records(pol: Policy, rec: Record, slug: string, now: nat, current: Snapshot, r: Reservation) {
    var c, o := rec.contract, r.origin;
    && r.flow == c.key.flow && r.reservedAt == now && r.slug == slug && r.rel == pol.changesFolder + "/" + slug
    && o.flow == c.key.flow && o.promotedAt == now && o.contract == c && o.attempts == rec.attempts
    && o.observed.baselineHead == c.baseline.head && o.observed.currentHead == current.head
    && (o.observed.headChanged <==> current.head != c.baseline.head)
    && forall p :: p in o.observed.changedPaths <==> Differs(c.baseline, current, p)
  }

  lemma ReservationRecords(pol: Policy, proc: Process, rec: Record, current: Snapshot)
    requires rec.contract.key == proc.key
    ensures Records(pol, rec, proc.slug, proc.now, current, ReservationFor(pol, proc, rec, current))
  {
    forall p ensures p in DiffSnapshots(rec.contract.baseline, current).changedPaths
                     <==> Differs(rec.contract.baseline, current, p) {
      ChangedExactly(rec.contract.baseline, current, p);
    }
    hide Differs;
  }

  // The flow ends promoted with both records, and otherwise as it was; no other flow has changed.
  ghost predicate PromotedAs(pol: Policy, before: Store, after: Store, k: Key, slug: string, now: nat, s: Snapshot)
    requires k in before
  {
    && after.Keys == before.Keys && (forall j | j in before && j != k :: after[j] == before[j])
    && after[k].reservation.Some? && after[k].promotion.Some?
    && after[k] == before[k].(reservation := after[k].reservation, promotion := after[k].promotion)
    && Records(pol, before[k], slug, now, s, after[k].reservation.value)
    && PromotionRepeats(after[k].reservation.value, after[k].promotion.value)
  }

  // A change that nothing of was there: all its files, with the origin that the flow has reserved.
  predicate FreshChange(d: Dir, o: Origin) {
    d == Dir({Proposal, TaskList, SpecImpact, Design, SpecBase}, Some(o), true, 0)
  }

  /**
   Left alone, a first promotion ends with a reservation that holds the slug asked for, the time, the contract, all
   attempts and exactly the paths that differ from the baseline, with the promotion that this fixes, with one complete
   new directory, with pointer and session on the slug, and with its lock free; nothing else has changed.
   */
  lemma FirstTells(pol: Policy, g: World, k: Key, asked: string, q: nat, now: nat, a: Answers)
    requires Inv(pol, g) && CanPromote(pol, g, k, asked, q, a)
    requires a.current.Some? && a.terminal.Some? && DiffSnapshots(a.current.value, a.terminal.value).Quiet()
             && Safe(a.terminal.value)
    ensures var slug, after := Slug(g.flows[k].contract, asked), Drive(pol, Begin(pol, g, q, k, asked, now), q, a);
            var rel := pol.changesFolder + "/" + slug;
            && PromotedAs(pol, g.flows, after.flows, k, slug, now, a.current.value)
            && after.dirs.Keys == g.dirs.Keys + {rel} && rel !in g.dirs
            && (forall d | d in g.dirs :: after.dirs[d] == g.dirs[d])
            && FreshChange(after.dirs[rel], after.flows[k].reservation.value.origin)
            && after.pointer == slug && after.sessionSlugs == g.sessionSlugs[k.session := slug]
            && after.locks == g.locks - {slug} && after.procs == g.procs - {q}
  {
    CanSays(pol, g, k, asked, q, a);
    hide *;
    var slug := Slug(g.flows[k].contract, asked);
    var begun, reserved := Begin(pol, g, q, k, asked, now), FirstReserved(pol, g, k, slug, q, now, a.current.value);
    InvParts(pol, g);
    SoundRecord(pol, g.flows, k);
    ActiveIsNew(pol, g, k, asked, q, a);
    DirHasOwner(g.flows, g.dirs, pol.RelOf(slug));
    FirstReserves(pol, g, k, asked, q, now, a);
    BeginKeeps(pol, g, q, k, asked, now);
    ReservedProcess(pol, g, k, slug, q, now, a.current.value);
    TwoActsKeep(pol, begun, q, a, reserved);
    QuietTerminal(reserved.procs[q], a);
    InvParts(pol, reserved);
    DriveCompleted(pol, reserved, q, a);
    ReservedEnds(pol, g, k, slug, q, now, a, Drive(pol, reserved, q, a));
  }

  lemma ActiveIsNew(pol: Policy, g: World, k: Key, asked: string, q: nat, a: Answers)
    requires CanPromote(pol, g, k, asked, q, a) && Consistent(pol, k, g.flows[k])
    ensures g.flows[k].Active() && g.flows[k].contract.key == k && q !in g.procs
            && Slug(g.flows[k].contract, asked) !in g.locks
  {
    hide Acceptable, Owns;
  }

  lemma ReservedEnds(pol: Policy, g: World, k: Key, slug: string, q: nat, now: nat, a: Answers, after: World)
    requires k in g.flows && g.flows[k].contract.key == k && g.flows[k].Active() && a.current.Some?
    requires var reserved := FirstReserved(pol, g, k, slug, q, now, a.current.value);
             && q in reserved.procs && k in reserved.flows && reserved.flows[k].reservation.Some?
             && TerminalQuiet(reserved.procs[q], a) && Sound(pol, reserved.flows)
             && Completed(pol, reserved, q, a, reserved.flows[k].reservation.value, after)
    requires pol.RelOf(slug) !in g.dirs && q !in g.procs && slug !in g.locks
    ensures PromotedAs(pol, g.flows, after.flows, k, slug, now, a.current.value)
    ensures var rel := pol.changesFolder + "/" + slug;
            && after.dirs.Keys == g.dirs.Keys + {rel} && rel !in g.dirs
            && (forall d | d in g.dirs :: after.dirs[d] == g.dirs[d])
            && FreshChange(after.dirs[rel], after.flows[k].reservation.value.origin)
            && after.pointer == slug && after.sessionSlugs == g.sessionSlugs[k.session := slug]
            && after.locks == g.locks - {slug} && after.procs == g.procs - {q}
  {
    hide *;
    var reserved := FirstReserved(pol, g, k, slug, q, now, a.current.value);
    var r := reserved.flows[k].reservation.value;
    FirstFields(pol, g, k, slug, q, now, a.current.value);
    ActiveIsOpen(g.flows[k]);
    PromotionAccepted(pol, reserved.flows, k);
    RelIs(pol, slug);
    CompletedFields(pol, reserved, q, a, r, after);
    PromotionConfirms(pol, g, k, slug, now, a.current.value, reserved.flows, after.flows);
    NewChangeIs(r.origin);
    assert g.locks[slug := q] - {slug} == g.locks - {slug};
  }

  lemma ActiveIsOpen(rec: Record)
    requires rec.Active()
    ensures rec.receipt.None? && rec.promotion.None? && rec.reservation.None?
  {
  }

  lemma RelIs(pol: Policy, slug: string)
    ensures pol.RelOf(slug) == pol.changesFolder + "/" + slug
  {
  }

  // The world in which the reservation is written, field by field.
  lemma FirstFields(pol: Policy, g: World, k: Key, slug: string, q: nat, now: nat, current: Snapshot)
    requires k in g.flows && g.flows[k].contract.key == k
    ensures var reserved := FirstReserved(pol, g, k, slug, q, now, current);
            && reserved.flows.Keys == g.flows.Keys
            && (forall j | j in g.flows && j != k :: reserved.flows[j] == g.flows[j])
            && reserved.flows[k] == g.flows[k].(reservation := reserved.flows[k].reservation)
            && reserved.flows[k].reservation.Some?
            && Records(pol, g.flows[k], slug, now, current, reserved.flows[k].reservation.value)
            && reserved.dirs == g.dirs && reserved.sessionSlugs == g.sessionSlugs
            && reserved.locks == g.locks[slug := q] && reserved.procs - {q} == g.procs - {q}
            && q in reserved.procs && reserved.procs[q].key == k && reserved.procs[q].slug == slug
  {
    ReservationRecords(pol, FirstProcess(g, k, slug, now, current), g.flows[k], current);
    hide ReservationFor, Records;
  }

  lemma CompletedFields(pol: Policy, g: World, q: nat, a: Answers, r: Reservation, after: World)
    requires q in g.procs && Completed(pol, g, q, a, r, after) && TerminalQuiet(g.procs[q], a)
    requires pol.RelOf(g.procs[q].slug) !in g.dirs
    requires g.procs[q].key in g.flows && g.flows[g.procs[q].key].reservation.Some?
    requires Apply(pol, g.flows, WritePromotion(g.procs[q].key, PromotionFrom(g.procs[q].key, r, r.origin)))
             == Done(WithPromotion(g.flows, g.procs[q].key))
    ensures var slug := g.procs[q].slug;
            && after.flows == WithPromotion(g.flows, g.procs[q].key) && after.pointer == slug
            && after.dirs == g.dirs[pol.RelOf(slug) := WrittenDir(BARE, r.origin)]
            && after.sessionSlugs == g.sessionSlugs[g.procs[q].key.session := slug]
            && after.locks == g.locks - {slug} && after.procs == g.procs - {q}
  {
    hide TerminalQuiet, Apply, WrittenDir, PromotionFrom, WithPromotion;
  }

  lemma NewChangeIs(o: Origin)
    ensures FreshChange(WrittenDir(BARE, o), o)
  {
    assert WrittenDir(BARE, o).files == {Proposal, TaskList, SpecImpact, Design, SpecBase};
  }

  lemma PromotionConfirms(pol: Policy, g: World, k: Key, slug: string, now: nat, s: Snapshot, reserved: Store,
      after: Store)
    requires k in g.flows && g.flows[k].contract.key == k && g.flows[k].promotion.None?
    requires reserved.Keys == g.flows.Keys && (forall j | j in g.flows && j != k :: reserved[j] == g.flows[j])
    requires reserved[k] == g.flows[k].(reservation := reserved[k].reservation) && reserved[k].reservation.Some?
    requires Records(pol, g.flows[k], slug, now, s, reserved[k].reservation.value)
    requires after == WithPromotion(reserved, k)
    ensures after[k].reservation == reserved[k].reservation
    ensures PromotedAs(pol, g.flows, after, k, slug, now, s)
  {
    hide Differs;
  }

  /** The retry that a crash leaves open writes the promotion that the reservation fixes, and changes no other record. */
  lemma RetryTells(pol: Policy, g: World, proc: Process, q: nat, now: nat, a: Answers)
    requires Inv(pol, g) && Holds(pol, g.flows, proc) && proc.slug !in g.locks && q !in g.procs
    requires Acceptable(g.flows[proc.key].contract, a) && !HasTemp(g.dirs, pol.RelOf(proc.slug))
    requires a.terminal.Some? && DiffSnapshots(a.current.value, a.terminal.value).Quiet() && Safe(a.terminal.value)
    ensures var k, after := proc.key, Drive(pol, Begin(pol, g, q, proc.key, "", now), q, a).flows;
            && after.Keys == g.flows.Keys && (forall j | j in g.flows && j != k :: after[j] == g.flows[j])
            && g.flows[k].reservation.Some? && after[k].promotion.Some?
            && after[k] == g.flows[k].(promotion := after[k].promotion)
            && PromotionRepeats(g.flows[k].reservation.value, after[k].promotion.value)
  {
    hide *;
    RetryCompletes(pol, g, proc, q, now, a);
    InvParts(pol, g);
    HoldsKey(pol, g.flows, proc);
    SoundRecord(pol, g.flows, proc.key);
    EndedTells(pol, g, proc.key, pol.RelOf(proc.slug), Drive(pol, Begin(pol, g, q, proc.key, "", now), q, a));
  }

  lemma HoldsKey(pol: Policy, flows: Store, proc: Process)
    requires Holds(pol, flows, proc)
    ensures proc.key in flows
  {
  }

  lemma EndedTells(pol: Policy, g: World, k: Key, rel: string, after: World)
    requires Ended(pol, g, k, rel, after) && Consistent(pol, k, g.flows[k])
    ensures after.flows.Keys == g.flows.Keys && (forall j | j in g.flows && j != k :: after.flows[j] == g.flows[j])
    ensures g.flows[k].reservation.Some? && after.flows[k].promotion.Some?
    ensures after.flows[k] == g.flows[k].(promotion := after.flows[k].promotion)
    ensures PromotionRepeats(g.flows[k].reservation.value, after.flows[k].promotion.value)
  {
    hide Complete, ReservationMatches, ValidContract, ValidAttempt;
  }

  // ---------- the terminal look ----------

  // The repository is still as the inspection saw it, and safe; session and topology still permit.
  ghost predicate StillSo(proc: Process, a: Answers) {
    && a.sessionOk && a.topologyOk && proc.current.Some? && a.terminal.Some?
    && SameEverywhere(proc.current.value, a.terminal.value)
    && a.terminal.value.hidden == [] && a.terminal.value.unsafeMetadata == []
    && a.terminal.value.unsafeWorktree == [] && a.terminal.value.unsafePhysical == []
  }

  lemma QuietExactly(proc: Process, a: Answers)
    ensures TerminalQuiet(proc, a) <==> StillSo(proc, a)
  {
    if proc.current.Some? && a.terminal.Some? {
      QuietIsSame(proc.current.value, a.terminal.value);
    }
    hide DiffSnapshots, SameEverywhere;
  }

  /**
   The last step of a promotion writes the terminal record exactly when the repository is still as the inspection saw
   it; either way the process ends, its lock is free, and nothing else changes.
   */
  lemma SettleExactly(pol: Policy, g: World, p: nat, a: Answers)
    requires Sound(pol, g.flows) && p in g.procs && g.procs[p].stage == Settling && Holds(pol, g.flows, g.procs[p])
    ensures var k, after := g.procs[p].key, Act(pol, g, p, a);
            && after == Release(g, p).(flows := after.flows)
            && k in g.flows && k in after.flows && g.flows[k].promotion.None?
            && (after.flows[k].promotion.Some? <==> StillSo(g.procs[p], a))
            && after.flows == (if StillSo(g.procs[p], a) then WithPromotion(g.flows, k) else g.flows)
  {
    var proc := g.procs[p];
    QuietExactly(proc, a);
    HoldsReserved(pol, g.flows, proc);
    hide Sound, TerminalQuiet, StillSo, Holds;
    if TerminalQuiet(proc, a) {
      SettleActs(pol, g, p, a);
    } else {
      SettleGivesUp(pol, g, p, a);
    }
  }

  lemma SettleGivesUp(pol: Policy, g: World, p: nat, a: Answers)
    requires p in g.procs && g.procs[p].stage == Settling && !TerminalQuiet(g.procs[p], a)
    requires g.procs[p].key in g.flows && g.flows[g.procs[p].key].reservation.Some?
    ensures Act(pol, g, p, a) == Release(g, p)
  {
    hide TerminalQuiet, Apply;
  }

  // ---------- every promotion of every run ----------

  // The event is the last step of a process of this flow, and the repository is still as its inspection saw it.
  ghost predicate Settles(g: World, e: Event, k: Key) {
    && e.Acting? && e.p in g.procs && g.procs[e.p].key == k && g.procs[e.p].stage == Settling
    && StillSo(g.procs[e.p], e.answers)
  }

  lemma OtherCallsPromote(pol: Policy, st: Store, call: Call, k: Key)
    requires !call.WritePromotion? && k in Next(pol, st, call) && Next(pol, st, call)[k].promotion.Some?
    ensures k in st && st[k].promotion == Next(pol, st, call)[k].promotion
  {
    hide Consistent, ValidAttempt, ValidReceipt, ReceiptMatches, ValidReservation, ReservationMatches, ValidContract;
  }

  lemma ReservePromotes(pol: Policy, g: World, p: nat, k: Key)
    requires p in g.procs && k in ActReserve(pol, g, p).flows && ActReserve(pol, g, p).flows[k].promotion.Some?
    ensures k in g.flows && g.flows[k].promotion == ActReserve(pol, g, p).flows[k].promotion
  {
    var proc := g.procs[p];
    if proc.seen.Some? && proc.current.Some? {
      var call := Reserve(proc.key, ReservationFor(pol, proc, proc.seen.value, proc.current.value));
      hide ReservationFor, Apply;
      if Next(pol, g.flows, call) != g.flows {
        OtherCallsPromote(pol, g.flows, call, k);
      }
    }
  }

  lemma OtherStages(pol: Policy, g: World, p: nat, a: Answers)
    requires p in g.procs && g.procs[p].stage != Settling
    ensures Act(pol, g, p, a).flows == if g.procs[p].stage == Reserving then ActReserve(pol, g, p).flows else g.flows
  {
    hide ActSettle, ActReserve, Inspect, Advance, TempReady;
  }

  lemma SettlePromotes(pol: Policy, g: World, p: nat, a: Answers, k: Key)
    requires Inv(pol, g) && p in g.procs && g.procs[p].stage == Settling && k in Act(pol, g, p, a).flows
    requires Act(pol, g, p, a).flows[k].promotion.Some? && (k in g.flows ==> g.flows[k].promotion.None?)
    ensures Settles(g, Acting(p, a), k)
  {
    assert Order(Settling) == 15;
    hide *;
    InvParts(pol, g);
    SettlingHolds(pol, g, p);
    SettleExactly(pol, g, p, a);
    StillStays(g, p, k);
    SettlesIs(g, p, a, k);
  }

  lemma SettlingHolds(pol: Policy, g: World, p: nat)
    requires Inv(pol, g) && p in g.procs && Order(g.procs[p].stage) >= 2
    ensures Holds(pol, g.flows, g.procs[p])
  {
    Parts(pol, g, p);
    hide Inv, Sound, OwnedOnce, DirsOwned, StageOk, Holds, HasTemp, IsSave;
    StageTemps(pol, g.flows, g.dirs, g.procs[p]);
  }

  // Writing the promotion of one flow touches no other.
  lemma StillStays(g: World, p: nat, k: Key)
    requires p in g.procs
    ensures var own := g.procs[p].key;
            own in g.flows && g.flows[own].reservation.Some? && k != own ==>
              (k in WithPromotion(g.flows, own) <==> k in g.flows)
              && (k in g.flows ==> WithPromotion(g.flows, own)[k] == g.flows[k])
  {
  }

  lemma SettlesIs(g: World, p: nat, a: Answers, k: Key)
    requires p in g.procs && g.procs[p].key == k && g.procs[p].stage == Settling && StillSo(g.procs[p], a)
    ensures Settles(g, Acting(p, a), k)
  {
    hide StillSo;
  }

  lemma ActPromotes(pol: Policy, g: World, p: nat, a: Answers, k: Key)
    requires Inv(pol, g) && p in g.procs && k in Act(pol, g, p, a).flows
    requires Act(pol, g, p, a).flows[k].promotion.Some? && (k in g.flows ==> g.flows[k].promotion.None?)
    ensures Settles(g, Acting(p, a), k)
  {
    hide Inv, Act, ActReserve, Settles;
    if g.procs[p].stage == Settling {
      SettlePromotes(pol, g, p, a, k);
    } else {
      OtherStages(pol, g, p, a);
      if g.procs[p].stage == Reserving {
        ReservePromotes(pol, g, p, k);
      }
    }
  }

  // A step leaves promotions as they are, except for the one that its process settles.
  lemma StepPromotes(pol: Policy, g: World, e: Event, k: Key)
    requires Inv(pol, g) && Proper(e) && k in Step(pol, g, e).flows && Step(pol, g, e).flows[k].promotion.Some?
    ensures (k in g.flows && g.flows[k].promotion == Step(pol, g, e).flows[k].promotion) || Settles(g, e, k)
  {
    InvParts(pol, g);
    hide Inv, Sound, OwnedOnce, DirsOwned, Settles;
    if k in g.flows && g.flows[k].promotion.Some? {
      StepExtends(pol, g, e);
      hide Step;
    } else if e.Acting? {
      if e.p in g.procs {
        hide Act;
        ActPromotes(pol, g, e.p, e.answers, k);
      }
    } else if e.Elsewhere? {
      hide Next;
      OtherCallsPromote(pol, g.flows, e.call, k);
    } else {
      hide BeginRefusal;
    }
  }

  /** In every run, with crashes and other calls, each promotion was settled over an unmoved and safe repository. */
  lemma {:induction false} PromotionsJustified(pol: Policy, events: seq<Event>, k: Key) returns (i: nat)
    requires forall e | e in events :: Proper(e)
    requires k in History(pol, events).flows && History(pol, events).flows[k].promotion.Some?
    ensures i < |events| && Settles(History(pol, events[..i]), events[i], k)
  {
    var n := |events| - 1;
    HistoryKeeps(pol, events[..n]);
    hide Inv, Step, Proper, Settles;
    StepPromotes(pol, History(pol, events[..n]), events[n], k);
    if Settles(History(pol, events[..n]), events[n], k) {
      i := n;
    } else {
      i := PromotionsJustified(pol, events[..n], k);
      assert events[..n][..i] == events[..i];
    }
  }
}
