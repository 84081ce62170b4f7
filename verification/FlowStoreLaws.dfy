/** Exactly when each call of the FLOW store writes, what a second call meets, and what every record of a run says. */
module FlowStoreLaws {
  import opened Common
  import opened FlowSnapshot
  import opened FlowStore

  // ---------- what every record says ----------

  ghost predicate AttemptSays(pol: Policy, id: string, a: Attempt) {
    a.id == id && (exists f :: f in a.failures) && forall p | p in a.changedPaths :: pol.canonical(p)
  }

  ghost predicate ReceiptSays(pol: Policy, c: Contract, r: Receipt) {
    && r.flow == c.key.flow && r.reason == c.reason && r.allowedPaths == c.allowedPaths && r.sensorIds == c.sensorIds
    && r.allowedPaths != [] && r.sensorIds != [] && r.baselineHead == c.baseline.head
    && (exists p :: p in r.changedPaths)
    && (forall p | p in r.changedPaths :: pol.canonical(p) && PathAllowed(p, c.allowedPaths))
    && |r.evidence| == |c.sensorIds|
    && (forall i | 0 <= i < |r.evidence| :: r.evidence[i].id == c.sensorIds[i] && r.evidence[i].green)
  }

  ghost predicate ReservationSays(pol: Policy, c: Contract, r: Reservation) {
    var o := r.origin;
    && r.flow == c.key.flow && pol.slugOk(r.slug) && r.rel == pol.changesFolder + "/" + r.slug
    && o.flow == c.key.flow && o.promotedAt == r.reservedAt && o.contract == c
    && o.observed.baselineHead == c.baseline.head
    && (o.observed.headChanged <==> o.observed.currentHead != c.baseline.head)
    && (forall p | p in o.observed.changedPaths :: pol.canonical(p))
  }

  ghost predicate PromotionRepeats(r: Reservation, m: Promotion) {
    && m.flow == r.flow && m.promotedAt == r.reservedAt && m.slug == r.slug && m.rel == r.rel
    && m.originFile == r.rel + "/flow-origin.json" && m.changedPaths == r.origin.observed.changedPaths
    && m.baselineHead == r.origin.observed.baselineHead && m.currentHead == r.origin.observed.currentHead
  }

  // A flow is finished, or reserved and perhaps promoted, or neither; all its records fit its contract.
  ghost predicate RecordSays(pol: Policy, k: Key, rec: Record) {
    && rec.contract.key == k && rec.contract.allowedPaths != [] && rec.contract.sensorIds != []
    && (forall id | id in rec.attempts :: AttemptSays(pol, id, rec.attempts[id]))
    && match rec.receipt
       case Some(r) => ReceiptSays(pol, rec.contract, r) && rec.reservation.None? && rec.promotion.None?
       case None => match rec.reservation
         case Some(r) =>
           && ReservationSays(pol, rec.contract, r) && r.origin.attempts == rec.attempts
           && (rec.promotion.Some? ==> PromotionRepeats(r, rec.promotion.value))
         case None => rec.promotion.None?
  }

  lemma EvidenceSays(evidence: seq<Evidence>, ids: seq<string>)
    ensures Ids(evidence) == ids && AllGreen(evidence)
            <==> |evidence| == |ids| && forall i | 0 <= i < |evidence| :: evidence[i].id == ids[i] && evidence[i].green
  {
    if Ids(evidence) == ids && AllGreen(evidence) {
      assert forall i | 0 <= i < |evidence| :: Ids(evidence)[i] == evidence[i].id && evidence[i] in evidence;
    }
  }

  lemma ReceiptExactly(pol: Policy, k: Key, c: Contract, r: Receipt)
    requires c.key == k
    ensures ValidReceipt(pol, k, r) && ReceiptMatches(pol, r, c) <==> ReceiptSays(pol, c, r)
  {
    EvidenceSays(r.evidence, c.sensorIds);
    hide Ids, AllGreen, PathAllowed;
  }

  lemma ReservationExactly(pol: Policy, k: Key, c: Contract, r: Reservation)
    requires c.key == k && ValidContract(pol, c)
    ensures ValidReservation(pol, k, r) && ReservationMatches(r, c) <==> ReservationSays(pol, c, r)
  {
  }

  lemma PromotionExactly(k: Key, r: Reservation, m: Promotion)
    requires r.flow == k.flow
    ensures PromotionMatches(k, m, r) <==> PromotionRepeats(r, m)
  {
  }

  /** A flow can be read exactly when its records say what they must. */
  lemma ReadExactly(pol: Policy, k: Key, rec: Record)
    ensures Consistent(pol, k, rec) <==> RecordSays(pol, k, rec)
  {
    if rec.contract.key == k && ValidContract(pol, rec.contract) {
      if rec.receipt.Some? {
        ReceiptExactly(pol, k, rec.contract, rec.receipt.value);
      }
      if rec.reservation.Some? {
        ReservationExactly(pol, k, rec.contract, rec.reservation.value);
        if rec.promotion.Some? && rec.reservation.value.flow == k.flow {
          PromotionExactly(k, rec.reservation.value, rec.promotion.value);
        }
      }
    }
    hide ValidReceipt, ReceiptMatches, ReceiptSays, ValidReservation, ReservationMatches, ReservationSays,
         PromotionMatches, PromotionRepeats;
  }

  /** In every run of store calls every record of every flow says what it must. */
  lemma RecordsInRuns(pol: Policy, calls: seq<Call>, k: Key)
    requires k in Run(pol, map[], calls)
    ensures RecordSays(pol, k, Run(pol, map[], calls)[k])
  {
    hide Run, RecordSays;
    RunSound(pol, map[], calls);
    SoundRecord(pol, Run(pol, map[], calls), k);
    ReadExactly(pol, k, Run(pol, map[], calls)[k]);
  }

  // ---------- exactly when a call writes ----------

  // The session of the flow: everything in it can be read, and nothing in it is open.
  ghost predicate SessionFree(pol: Policy, st: Store, session: string) {
    forall k | k in st && k.session == session ::
      RecordSays(pol, k, st[k]) && (st[k].receipt.Some? || st[k].promotion.Some?)
  }

  /** A contract is created exactly once, and only in a session that is readable and has no open flow. */
  lemma CreateExactly(pol: Policy, st: Store, c: Contract)
    ensures Apply(pol, st, Create(c)).Done?
            <==> && c.allowedPaths != [] && c.sensorIds != []
                 && (c.key in st ==> st[c.key].contract == c)
                 && (c.key !in st ==> SessionFree(pol, st, c.key.session))
    ensures Apply(pol, st, Create(c)).Done? ==>
              Next(pol, st, Create(c)) == if c.key in st then st else st[c.key := Record(c, map[], None, None, None)]
    ensures Apply(pol, st, Create(c)) == Thrown(AlreadyActive) ==>
              exists k :: k in st && k.session == c.key.session && st[k].receipt.None? && st[k].promotion.None?
  {
    forall k | k in st ensures Consistent(pol, k, st[k]) <==> RecordSays(pol, k, st[k]) {
      ReadExactly(pol, k, st[k]);
    }
    hide Consistent, RecordSays;
  }

  // What is written where nothing was; what is there already only if it is the same.
  ghost predicate Once<T>(before: Option<T>, given: T) {
    before.Some? ==> before.value == given
  }

  /** An attempt is written exactly on a readable, active flow, under an id that stands for no other attempt. */
  lemma AppendExactly(pol: Policy, st: Store, k: Key, a: Attempt)
    ensures Apply(pol, st, Append(k, a)).Done?
            <==> && k in st && RecordSays(pol, k, st[k]) && AttemptSays(pol, a.id, a)
                 && st[k].receipt.None? && st[k].promotion.None? && st[k].reservation.None?
                 && (a.id in st[k].attempts ==> st[k].attempts[a.id] == a)
    ensures Apply(pol, st, Append(k, a)).Done? ==>
              Next(pol, st, Append(k, a)) == st[k := st[k].(attempts := st[k].attempts[a.id := a])]
  {
    if k in st {
      ReadExactly(pol, k, st[k]);
      if a.id in st[k].attempts && st[k].attempts[a.id] == a {
        assert st[k].attempts[a.id := a] == st[k].attempts;
      }
    }
    hide Consistent, RecordSays;
  }

  /** A receipt is written exactly on a readable flow that is not reserved, if it fits the contract, and only once. */
  lemma WriteReceiptExactly(pol: Policy, st: Store, k: Key, r: Receipt)
    ensures Apply(pol, st, WriteReceipt(k, r)).Done?
            <==> && k in st && RecordSays(pol, k, st[k]) && st[k].reservation.None?
                 && ReceiptSays(pol, st[k].contract, r) && Once(st[k].receipt, r)
    ensures Apply(pol, st, WriteReceipt(k, r)).Done? ==>
              Next(pol, st, WriteReceipt(k, r)) == st[k := st[k].(receipt := Some(r))]
  {
    if k in st {
      ReadExactly(pol, k, st[k]);
      if st[k].contract.key == k {
        ReceiptExactly(pol, k, st[k].contract, r);
      }
      assert Consistent(pol, k, st[k]) ==>
          st[k].contract.key == k && (st[k].promotion.Some? ==> st[k].reservation.Some?);
    }
    hide Consistent, RecordSays, ValidReceipt, ReceiptMatches, ReceiptSays;
  }

  /** A reservation is written exactly on a readable, open flow, if it fits contract and attempts, and only once. */
  lemma ReserveExactly(pol: Policy, st: Store, k: Key, r: Reservation)
    ensures Apply(pol, st, Reserve(k, r)).Done?
            <==> && k in st && RecordSays(pol, k, st[k]) && st[k].receipt.None? && st[k].promotion.None?
                 && ReservationSays(pol, st[k].contract, r) && Once(st[k].reservation, r)
                 && r.origin.attempts == st[k].attempts
    ensures Apply(pol, st, Reserve(k, r)).Done? ==>
              Next(pol, st, Reserve(k, r)) == st[k := st[k].(reservation := Some(r))]
  {
    if k in st {
      ReadExactly(pol, k, st[k]);
      if st[k].contract.key == k && ValidContract(pol, st[k].contract) {
        ReservationExactly(pol, k, st[k].contract, r);
      }
      assert Consistent(pol, k, st[k]) ==>
          && st[k].contract.key == k && ValidContract(pol, st[k].contract)
          && (st[k].reservation.Some? ==> st[k].reservation.value.origin.attempts == st[k].attempts);
    }
    hide Consistent, RecordSays, ValidReservation, ReservationMatches, ReservationSays, ValidContract;
  }

  /** A promotion is written exactly on a readable, reserved flow, if it repeats the reservation, and only once. */
  lemma WritePromotionExactly(pol: Policy, st: Store, k: Key, m: Promotion)
    ensures Apply(pol, st, WritePromotion(k, m)).Done?
            <==> && k in st && RecordSays(pol, k, st[k]) && st[k].reservation.Some?
                 && PromotionRepeats(st[k].reservation.value, m)
    ensures Apply(pol, st, WritePromotion(k, m)).Done? ==>
              Next(pol, st, WritePromotion(k, m)) == st[k := st[k].(promotion := Some(m))]
  {
    if k in st {
      ReadExactly(pol, k, st[k]);
      if Consistent(pol, k, st[k]) && st[k].reservation.Some? {
        PromotionExactly(k, st[k].reservation.value, m);
        if st[k].promotion.Some? {
          PromotionExactly(k, st[k].reservation.value, st[k].promotion.value);
        }
      }
      assert Consistent(pol, k, st[k]) && st[k].receipt.Some? ==> st[k].reservation.None?;
    }
    hide Consistent, RecordSays, PromotionMatches;
  }

  // ---------- errors ----------

  // The flow has an end already that forbids this call.
  predicate IsOver(rec: Record, call: Call) {
    match call
    case Create(_) => false
    case Append(_, _) => rec.receipt.Some? || rec.promotion.Some? || rec.reservation.Some?
    case WriteReceipt(_, _) => rec.reservation.Some? || rec.promotion.Some?
    case Reserve(_, _) => rec.receipt.Some? || rec.promotion.Some?
    case WritePromotion(_, _) => rec.receipt.Some?
  }

  /**
   A call that fits itself says that a flow is not found, cannot be read, or is over, in this order; another content
   for what was written already is a conflict.
   */
  lemma ErrorsExactly(pol: Policy, st: Store, call: Call)
    requires !call.Create? && (call.Append? ==> AttemptSays(pol, call.attempt.id, call.attempt))
    requires call.Reserve? ==> ValidReservation(pol, call.key, call.reservation)
    ensures Apply(pol, st, call) == Thrown(NotFound) <==> call.key !in st
    ensures call.key in st && !RecordSays(pol, call.key, st[call.key]) ==> Apply(pol, st, call) == Thrown(Corrupt)
    ensures Apply(pol, st, call) == Thrown(Terminal)
            <==> call.key in st && RecordSays(pol, call.key, st[call.key]) && IsOver(st[call.key], call)
    ensures Apply(pol, st, call) == Thrown(Stale)
            <==> && call.key in st && RecordSays(pol, call.key, st[call.key]) && call.Reserve?
                 && !IsOver(st[call.key], call) && st[call.key].reservation.None?
                 && ReservationMatches(call.reservation, st[call.key].contract)
                 && call.reservation.origin.attempts != st[call.key].attempts
  {
    if call.key in st {
      ReadExactly(pol, call.key, st[call.key]);
      assert Consistent(pol, call.key, st[call.key]) && st[call.key].promotion.Some? ==> st[call.key].reservation.Some?;
    }
    hide Consistent, RecordSays, ValidReservation, ReservationMatches, ValidReceipt, ReceiptMatches, PromotionMatches;
  }

  /** A malformed attempt or reservation is refused as such, whether its flow is there or not. */
  lemma MalformedRefused(pol: Policy, st: Store, call: Call)
    requires (call.Append? && !AttemptSays(pol, call.attempt.id, call.attempt))
             || (call.Reserve? && !ValidReservation(pol, call.key, call.reservation))
    ensures Apply(pol, st, call) == Thrown(Corrupt)
  {
    hide Consistent, ValidReservation;
  }
}
