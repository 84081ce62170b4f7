/**
 The durable FLOW store (packages/harness/src/flow-store.mjs): create-once records of a flow, written by
 atomic calls that re-read and check the flow under the lock of its session.
 */
module FlowStore {
  import opened Common
  import opened FlowSnapshot

  datatype Key = Key(session: string, flow: string)

  // Outside decisions: which paths are canonical, which are protected, where changes live, which slugs are legal.
  datatype Policy = Policy(
    canonical: Path -> bool,
    protects: (Path, seq<string>) -> bool,
    slugOk: string -> bool,
    changesFolder: string)
  {
    function RelOf(slug: string): string {
      changesFolder + "/" + slug
    }
  }

  datatype Contract = Contract(
    key: Key, slug: string, reason: string, allowedPaths: seq<string>, protectedRoots: seq<string>,
    sensorIds: seq<string>, sensorHash: int, baseline: Snapshot)

  datatype Failure =
    | TopologyFailed | ScanFailed | RootMoved | HeadMoved | MetadataMoved | UnsafeSnapshot | NothingChanged
    | OutsideAllowlist(path: Path) | ProtectedSurface(path: Path) | DiffCheckRed
    | SensorConfigFailed | SensorDefinitionChanged | SensorRed | SensorMutation | AfterSensorsUnconfirmed
    | TerminalFailed

  datatype Evidence = Evidence(id: string, green: bool, warning: bool)

  datatype Attempt = Attempt(id: string, failures: set<Failure>, changedPaths: set<Path>, evidence: seq<Evidence>)

  datatype Receipt = Receipt(
    flow: string, reason: string, allowedPaths: seq<string>, sensorIds: seq<string>, changedPaths: set<Path>,
    evidence: seq<Evidence>, baselineHead: string, finalHead: string)

  datatype Observed = Observed(baselineHead: string, currentHead: string, headChanged: bool, changedPaths: set<Path>)

  datatype Origin = Origin(flow: string, promotedAt: nat, contract: Contract, attempts: map<string, Attempt>,
                           observed: Observed)

  datatype Reservation = Reservation(flow: string, reservedAt: nat, slug: string, rel: string, origin: Origin)

  datatype Promotion = Promotion(
    flow: string, promotedAt: nat, slug: string, rel: string, originFile: string,
    changedPaths: set<Path>, baselineHead: string, currentHead: string)

  datatype Record = Record(contract: Contract, attempts: map<string, Attempt>, receipt: Option<Receipt>,
                           reservation: Option<Reservation>, promotion: Option<Promotion>)
  {
    predicate Open() {
      receipt.None? && promotion.None?
    }

    predicate Active() {
      Open() && reservation.None?
    }
  }

  type Store = map<Key, Record>

  datatype Error = NotFound | Terminal | Corrupt | ImmutableConflict | Stale | AlreadyActive

  // ---------- what a read insists on ----------

  predicate AllCanonical(pol: Policy, paths: set<Path>) {
    forall p | p in paths :: pol.canonical(p)
  }

  function Ids(evidence: seq<Evidence>): seq<string> {
    seq(|evidence|, i requires 0 <= i < |evidence| => evidence[i].id)
  }

  predicate AllGreen(evidence: seq<Evidence>) {
    forall e | e in evidence :: e.green
  }

  predicate ValidContract(pol: Policy, c: Contract) {
    && c.allowedPaths != [] && c.sensorIds != []
  }

  predicate ValidAttempt(pol: Policy, a: Attempt) {
    a.failures != {} && AllCanonical(pol, a.changedPaths)
  }

  predicate ValidReceipt(pol: Policy, k: Key, r: Receipt) {
    r.flow == k.flow && r.changedPaths != {} && AllCanonical(pol, r.changedPaths)
    && r.allowedPaths != [] && r.sensorIds != []
  }

  predicate ReceiptMatches(pol: Policy, r: Receipt, c: Contract) {
    && r.reason == c.reason && r.allowedPaths == c.allowedPaths && r.sensorIds == c.sensorIds
    && Ids(r.evidence) == c.sensorIds && AllGreen(r.evidence)
    && (forall p | p in r.changedPaths :: pol.canonical(p) && PathAllowed(p, c.allowedPaths))
    && r.baselineHead == c.baseline.head
  }

  predicate ValidReservation(pol: Policy, k: Key, r: Reservation) {
    && r.flow == k.flow && r.origin.flow == k.flow && pol.slugOk(r.slug) && r.rel == pol.RelOf(r.slug)
    && r.origin.promotedAt == r.reservedAt && AllCanonical(pol, r.origin.observed.changedPaths)
    && ValidContract(pol, r.origin.contract)
  }

  predicate ReservationMatches(r: Reservation, c: Contract) {
    && r.origin.contract == c
    && r.origin.observed.baselineHead == c.baseline.head
    && r.origin.observed.headChanged == (r.origin.observed.currentHead != r.origin.observed.baselineHead)
  }

  function OriginFile(rel: string): string {
    rel + "/flow-origin.json"
  }

  predicate PromotionMatches(k: Key, p: Promotion, r: Reservation) {
    p == PromotionOf(k, r)
  }

  // The only promotion that a reservation admits.
  function PromotionOf(k: Key, r: Reservation): Promotion {
    Promotion(k.flow, r.reservedAt, r.slug, r.rel, OriginFile(r.rel), r.origin.observed.changedPaths,
              r.origin.observed.baselineHead, r.origin.observed.currentHead)
  }

  // A read of the flow succeeds; otherwise it reports corruption.
  predicate Consistent(pol: Policy, k: Key, rec: Record) {
    && rec.contract.key == k && ValidContract(pol, rec.contract)
    && (rec.receipt.Some? ==>
          && ValidReceipt(pol, k, rec.receipt.value) && ReceiptMatches(pol, rec.receipt.value, rec.contract)
          && rec.promotion.None? && rec.reservation.None?)
    && (rec.reservation.Some? ==>
          && ValidReservation(pol, k, rec.reservation.value) && ReservationMatches(rec.reservation.value, rec.contract)
          && rec.reservation.value.origin.attempts == rec.attempts)
    && (rec.promotion.Some? ==>
          rec.reservation.Some? && PromotionMatches(k, rec.promotion.value, rec.reservation.value))
    && (forall id | id in rec.attempts :: rec.attempts[id].id == id && ValidAttempt(pol, rec.attempts[id]))
  }

  // ---------- the calls ----------

  datatype Written = Written(rec: Record) | Refused(error: Error)

  function AppendTx(pol: Policy, k: Key, rec: Record, a: Attempt): Written {
    if !ValidAttempt(pol, a) || !Consistent(pol, k, rec) then Refused(Corrupt)
    else if !rec.Active() then Refused(Terminal)
    else if a.id in rec.attempts then (if rec.attempts[a.id] == a then Written(rec) else Refused(ImmutableConflict))
    else Written(rec.(attempts := rec.attempts[a.id := a]))
  }

  function ReceiptTx(pol: Policy, k: Key, rec: Record, r: Receipt): Written {
    if !Consistent(pol, k, rec) then Refused(Corrupt)
    else if rec.promotion.Some? || rec.reservation.Some? then Refused(Terminal)
    else if !ValidReceipt(pol, k, r) || !ReceiptMatches(pol, r, rec.contract) then Refused(Corrupt)
    else if rec.receipt.Some? then (if rec.receipt.value == r then Written(rec) else Refused(ImmutableConflict))
    else Written(rec.(receipt := Some(r)))
  }

  function ReserveTx(pol: Policy, k: Key, rec: Record, r: Reservation): Written {
    if !ValidReservation(pol, k, r) || !Consistent(pol, k, rec) then Refused(Corrupt)
    else if !rec.Open() then Refused(Terminal)
    else if !ReservationMatches(r, rec.contract) then Refused(Corrupt)
    else if rec.Active() && r.origin.attempts != rec.attempts then Refused(Stale)
    else if rec.reservation.Some? then (if rec.reservation.value == r then Written(rec) else Refused(ImmutableConflict))
    else Written(rec.(reservation := Some(r)))
  }

  function PromotionTx(pol: Policy, k: Key, rec: Record, p: Promotion): Written {
    if !Consistent(pol, k, rec) then Refused(Corrupt)
    else if rec.receipt.Some? then Refused(Terminal)
    else if rec.reservation.None? || !PromotionMatches(k, p, rec.reservation.value) then Refused(Corrupt)
    else if rec.promotion.Some? then (if rec.promotion.value == p then Written(rec) else Refused(ImmutableConflict))
    else Written(rec.(promotion := Some(p)))
  }

  datatype Call =
    | Create(contract: Contract)
    | Append(key: Key, attempt: Attempt)
    | WriteReceipt(key: Key, receipt: Receipt)
    | Reserve(key: Key, reservation: Reservation)
    | WritePromotion(key: Key, promotion: Promotion)

  function TxOn(pol: Policy, rec: Record, call: Call): Written
    requires !call.Create?
  {
    match call
    case Append(k, a) => AppendTx(pol, k, rec, a)
    case WriteReceipt(k, r) => ReceiptTx(pol, k, rec, r)
    case Reserve(k, r) => ReserveTx(pol, k, rec, r)
    case WritePromotion(k, p) => PromotionTx(pol, k, rec, p)
  }

  predicate SessionSound(pol: Policy, st: Store, session: string) {
    forall k | k in st && k.session == session :: Consistent(pol, k, st[k])
  }

  predicate SessionBusy(st: Store, session: string) {
    exists k :: k in st && k.session == session && st[k].Open()
  }

  datatype Outcome = Done(store: Store) | Thrown(error: Error)

  function CreateTx(pol: Policy, st: Store, c: Contract): Outcome {
    if !ValidContract(pol, c) then Thrown(Corrupt)
    else if c.key in st then (if st[c.key].contract == c then Done(st) else Thrown(ImmutableConflict))
    else if !SessionSound(pol, st, c.key.session) then Thrown(Corrupt)
    else if SessionBusy(st, c.key.session) then Thrown(AlreadyActive)
    else Done(st[c.key := Record(c, map[], None, None, None)])
  }

  // What is checked before the flow is looked up.
  predicate Admissible(pol: Policy, call: Call) {
    && (call.Append? ==> ValidAttempt(pol, call.attempt))
    && (call.Reserve? ==> ValidReservation(pol, call.key, call.reservation))
  }

  function Apply(pol: Policy, st: Store, call: Call): Outcome {
    if call.Create? then CreateTx(pol, st, call.contract)
    else if call.key !in st then Thrown(if Admissible(pol, call) then NotFound else Corrupt)
    else match TxOn(pol, st[call.key], call)
      case Refused(error) => Thrown(error)
      case Written(rec) => Done(st[call.key := rec])
  }

  function Next(pol: Policy, st: Store, call: Call): Store {
    match Apply(pol, st, call)
    case Done(next) => next
    case Thrown(_) => st
  }

  function Run(pol: Policy, st: Store, calls: seq<Call>): Store
    decreases |calls|
  {
    if calls == [] then st else Run(pol, Next(pol, st, calls[0]), calls[1..])
  }

  // ---------- what every run keeps ----------

  predicate OneOpenEach(st: Store) {
    forall j, k | j in st && k in st && j.session == k.session && st[j].Open() && st[k].Open() :: j == k
  }

  predicate Sound(pol: Policy, st: Store) {
    (forall k | k in st :: Consistent(pol, k, st[k])) && OneOpenEach(st)
  }

  // Nothing durable is ever taken back, and attempts stop with the reservation or the receipt.
  predicate Extends(before: Record, after: Record) {
    && after.contract == before.contract
    && (before.receipt.Some? ==> after.receipt == before.receipt && after.reservation.None? && after.promotion.None?)
    && (before.reservation.Some? ==> after.reservation == before.reservation && after.receipt.None?)
    && (before.promotion.Some? ==> after.promotion == before.promotion)
    && (forall id | id in before.attempts :: id in after.attempts && after.attempts[id] == before.attempts[id])
    && (!before.Active() ==> after.attempts == before.attempts)
  }

  lemma TxKeeps(pol: Policy, k: Key, rec: Record, call: Call)
    requires !call.Create? && call.key == k && TxOn(pol, rec, call).Written?
    ensures var after := TxOn(pol, rec, call).rec;
            Consistent(pol, k, rec) && Consistent(pol, k, after) && Extends(rec, after) && (after.Open() ==> rec.Open())
  {
    hide ValidReceipt, ReceiptMatches, ValidReservation, ReservationMatches, PromotionMatches, ValidAttempt,
        ValidContract;
  }

  // Every flow of the first store is in the second, with nothing taken back.
  predicate StoreExtends(before: Store, after: Store) {
    forall k | k in before :: k in after && Extends(before[k], after[k])
  }

  lemma NextKeeps(pol: Policy, st: Store, call: Call)
    requires Sound(pol, st)
    ensures Sound(pol, Next(pol, st, call)) && StoreExtends(st, Next(pol, st, call))
  {
    hide TxOn, CreateTx, Sound, StoreExtends, Consistent, Extends, Admissible;
    StoreExtendsSelf(pol, st);
    if call.Create? {
      if CreateTx(pol, st, call.contract).Done? {
        CreateKeeps(pol, st, call.contract);
      }
    } else if call.key in st && TxOn(pol, st[call.key], call).Written? {
      TxKeeps(pol, call.key, st[call.key], call);
      ReplaceKeeps(pol, st, call.key, TxOn(pol, st[call.key], call).rec);
    }
  }

  lemma StoreExtendsSelf(pol: Policy, st: Store)
    requires Sound(pol, st)
    ensures StoreExtends(st, st)
  {
    forall k | k in st ensures Extends(st[k], st[k]) {
      ExtendsSelf(pol, k, st[k]);
    }
  }

  lemma ReplaceKeeps(pol: Policy, st: Store, k: Key, rec: Record)
    requires Sound(pol, st) && k in st && Consistent(pol, k, rec) && Extends(st[k], rec)
             && (rec.Open() ==> st[k].Open())
    ensures Sound(pol, st[k := rec]) && StoreExtends(st, st[k := rec])
  {
    StoreExtendsSelf(pol, st);
    hide Consistent, Extends;
  }

  lemma CreateKeeps(pol: Policy, st: Store, c: Contract)
    requires Sound(pol, st) && CreateTx(pol, st, c).Done?
    ensures var after := CreateTx(pol, st, c).store;
            Sound(pol, after) && StoreExtends(st, after)
  {
    StoreExtendsSelf(pol, st);
    hide Consistent, ValidContract, Extends;
    if c.key !in st {
      FreshConsistent(pol, c);
    }
  }

  lemma FreshConsistent(pol: Policy, c: Contract)
    requires ValidContract(pol, c)
    ensures Consistent(pol, c.key, Record(c, map[], None, None, None))
  {
  }

  /**
   Every run of calls, in any interleaving, keeps every flow readable, leaves at most one open flow in a session,
   never joins a receipt with a reservation, and never takes back or rewrites anything durable.
   */
  lemma {:induction false} RunSound(pol: Policy, st: Store, calls: seq<Call>)
    requires Sound(pol, st)
    ensures Sound(pol, Run(pol, st, calls)) && StoreExtends(st, Run(pol, st, calls))
    decreases |calls|
  {
    hide Sound, Next, Extends;
    if calls == [] {
      StoreExtendsSelf(pol, st);
    } else {
      var mid := Next(pol, st, calls[0]);
      NextKeeps(pol, st, calls[0]);
      RunSound(pol, mid, calls[1..]);
      var after := Run(pol, st, calls);
      forall k | k in st ensures k in after && Extends(st[k], after[k]) {
        ExtendsTrans(st[k], mid[k], after[k]);
      }
    }
  }

  lemma SoundRecord(pol: Policy, st: Store, k: Key)
    requires Sound(pol, st) && k in st
    ensures Consistent(pol, k, st[k])
  {
  }

  lemma ExtendsSelf(pol: Policy, k: Key, rec: Record)
    requires Consistent(pol, k, rec)
    ensures Extends(rec, rec)
  {
  }

  lemma ExtendsTrans(a: Record, b: Record, c: Record)
    requires Extends(a, b) && Extends(b, c)
    ensures Extends(a, c)
  {
  }

  /** A receipt in a run from the empty store carries what the contract asked for, all of it green. */
  lemma ReceiptsInRuns(pol: Policy, calls: seq<Call>, k: Key)
    requires var st := Run(pol, map[], calls); k in st && st[k].receipt.Some?
    ensures var rec := Run(pol, map[], calls)[k]; var r := rec.receipt.value;
            && r.changedPaths != {} && (forall p | p in r.changedPaths :: PathAllowed(p, rec.contract.allowedPaths))
            && |r.evidence| == |rec.contract.sensorIds|
            && (forall i | 0 <= i < |r.evidence| ::
                  r.evidence[i].id == rec.contract.sensorIds[i] && r.evidence[i].green)
            && rec.reservation.None? && rec.promotion.None?
  {
    RunSound(pol, map[], calls);
    var rec := Run(pol, map[], calls)[k];
    hide Run, PathAllowed;
    assert Ids(rec.receipt.value.evidence) == rec.contract.sensorIds;
    forall i | 0 <= i < |rec.receipt.value.evidence|
      ensures rec.receipt.value.evidence[i].id == rec.contract.sensorIds[i] && rec.receipt.value.evidence[i].green
    {
      assert Ids(rec.receipt.value.evidence)[i] == rec.contract.sensorIds[i];
    }
  }

  // ---------- the store as an object ----------

  // The files are those of the outcome; a refused call has changed nothing.
  predicate Yields(before: Store, o: Outcome, after: Store, error: Option<Error>) {
    match o
    case Done(next) => after == next && error == None
    case Thrown(e) => after == before && error == Some(e)
  }

  class FlowFiles {
    const pol: Policy
    var flows: Store

    constructor (policy: Policy)
      ensures pol == policy && flows == map[] && Sound(policy, flows)
    {
      pol, flows := policy, map[];
    }

    method CreateContract(c: Contract) returns (error: Option<Error>)
      modifies this`flows
      ensures Yields(old(flows), Apply(pol, old(flows), Create(c)), flows, error)
    {
      hide Consistent;
      if !ValidContract(pol, c) {
        return Some(Corrupt);
      }
      if c.key in flows {
        return if flows[c.key].contract == c then None else Some(ImmutableConflict);
      }
      if !SessionSound(pol, flows, c.key.session) {
        return Some(Corrupt);
      }
      if SessionBusy(flows, c.key.session) {
        return Some(AlreadyActive);
      }
      flows := flows[c.key := Record(c, map[], None, None, None)];
      error := None;
    }

    method AppendAttempt(k: Key, a: Attempt) returns (error: Option<Error>)
      modifies this`flows
      ensures Yields(old(flows), Apply(pol, old(flows), Append(k, a)), flows, error)
    {
      hide Consistent, ValidAttempt;
      if !ValidAttempt(pol, a) {
        return Some(Corrupt);
      }
      if k !in flows {
        return Some(NotFound);
      }
      if !Consistent(pol, k, flows[k]) {
        return Some(Corrupt);
      }
      if !flows[k].Active() {
        return Some(Terminal);
      }
      if a.id in flows[k].attempts {
        if flows[k].attempts[a.id] != a {
          return Some(ImmutableConflict);
        }
      } else {
        flows := flows[k := flows[k].(attempts := flows[k].attempts[a.id := a])];
      }
      error := None;
      assert flows == old(flows)[k := flows[k]];
    }

    method PutReceipt(k: Key, r: Receipt) returns (error: Option<Error>)
      modifies this`flows
      ensures Yields(old(flows), Apply(pol, old(flows), WriteReceipt(k, r)), flows, error)
    {
      hide Consistent, ValidReceipt, ReceiptMatches;
      if k !in flows {
        return Some(NotFound);
      }
      var rec := flows[k];
      if !Consistent(pol, k, rec) {
        return Some(Corrupt);
      }
      if rec.promotion.Some? || rec.reservation.Some? {
        return Some(Terminal);
      }
      if !ValidReceipt(pol, k, r) || !ReceiptMatches(pol, r, rec.contract) {
        return Some(Corrupt);
      }
      if rec.receipt.Some? && rec.receipt.value != r {
        return Some(ImmutableConflict);
      }
      if rec.receipt.None? {
        flows := flows[k := rec.(receipt := Some(r))];
      }
      error := None;
      assert flows == old(flows)[k := flows[k]];
    }

    method PutReservation(k: Key, r: Reservation) returns (error: Option<Error>)
      modifies this`flows
      ensures Yields(old(flows), Apply(pol, old(flows), Reserve(k, r)), flows, error)
    {
      hide Consistent, ValidReservation, ReservationMatches;
      if !ValidReservation(pol, k, r) {
        return Some(Corrupt);
      }
      if k !in flows {
        return Some(NotFound);
      }
      var rec := flows[k];
      if !Consistent(pol, k, rec) {
        return Some(Corrupt);
      }
      if !rec.Open() {
        return Some(Terminal);
      }
      if !ReservationMatches(r, rec.contract) {
        return Some(Corrupt);
      }
      if rec.Active() && r.origin.attempts != rec.attempts {
        return Some(Stale);
      }
      if rec.reservation.Some? && rec.reservation.value != r {
        return Some(ImmutableConflict);
      }
      if rec.reservation.None? {
        flows := flows[k := rec.(reservation := Some(r))];
      }
      error := None;
      assert flows == old(flows)[k := flows[k]];
    }

    method PutPromotion(k: Key, p: Promotion) returns (error: Option<Error>)
      modifies this`flows
      ensures Yields(old(flows), Apply(pol, old(flows), WritePromotion(k, p)), flows, error)
    {
      hide Consistent, PromotionMatches;
      if k !in flows {
        return Some(NotFound);
      }
      var rec := flows[k];
      if !Consistent(pol, k, rec) {
        return Some(Corrupt);
      }
      if rec.receipt.Some? {
        return Some(Terminal);
      }
      if rec.reservation.None? || !PromotionMatches(k, p, rec.reservation.value) {
        return Some(Corrupt);
      }
      if rec.promotion.Some? && rec.promotion.value != p {
        return Some(ImmutableConflict);
      }
      if rec.promotion.None? {
        flows := flows[k := rec.(promotion := Some(p))];
      }
      error := None;
      assert flows == old(flows)[k := flows[k]];
    }
  }
}
