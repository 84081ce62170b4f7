/**
 The shared registry of active contexts, cleanup reservations and cleanup tombstones
 (hooks/active-context-store.mjs), as a value, and the effect of one locked transaction on it.
 The commit guards of the registry writer (hooks/obsidian-common.mjs) are part of a transaction.
 */
module ContextModel {
  import opened Common

  datatype ContextState = Active | Closed

  datatype Context = Context(
    projectId: string, repositoryId: string, worktreeId: string, workSessionId: string,
    changeSlug: string, branch: string, headSha: string, deliveryId: string,
    state: ContextState, revision: nat)

  datatype SnapshotEntry = SnapshotEntry(key: string, context: Context)

  // What a cleanup is about. Lists the source sorts and dedups before comparing are sets here,
  // the snapshot it only sorts is a multiset.
  datatype Subject = Subject(
    projectId: string, repositoryId: string, worktreeId: string, workSessionId: string,
    changeSlug: string, targetContextIds: set<string>, targetChangeSlugs: set<string>,
    targetSnapshot: multiset<SnapshotEntry>, actorContextId: string, worktreePath: string,
    mode: string, authority: string, head: string, slug: string,
    pullRequestNumber: string, pullRequestRepository: string,
    headRefOid: string, mergeCommitOid: string)

  // A claim on a worktree by a cleanup operation. An empty attempt token is an absent one.
  datatype Claim<D> = Claim(operationId: string, subject: Subject, attemptToken: string, detail: D)

  datatype Lease = Lease(ownerPid: int, phase: string)
  datatype Seal = Seal(subjectHash: string)

  type Reservation = Claim<Lease>
  type Tombstone = Claim<Seal>

  datatype Session = Session(active: bool, workSessionId: string, repoRoot: string)

  datatype Registry = Registry(
    contexts: map<string, Context>,
    reservations: map<string, Reservation>,
    tombstones: map<string, Tombstone>,
    sessions: map<string, Session>,
    revision: nat)

  const EMPTY := Registry(map[], map[], map[], map[], 0)

  datatype Error =
    | IdentityInvalid | IdentityMismatch | Stale | SubjectInvalid
    | CleanupTerminal | CleanupReserved | TerminalConflict | Busy
    | ContextMismatch | SessionReserved | CasConflict | NotFound | Ambiguous

  datatype Outcome = Committed(next: Registry) | Thrown(error: Error)

  datatype Identity = Identity(
    projectId: string, repositoryId: string, worktreeId: string, workSessionId: string,
    branch: string, headSha: string)
  {
    predicate Valid() {
      IsId(projectId) && IsId(repositoryId) && IsId(worktreeId) && IsId(workSessionId)
    }
  }

  // The exported updaters, and any other function given to the mutator (by what it returned).
  datatype Update =
    | SetChange(slug: string) | ClearChange
    | SetDelivery(deliveryId: string) | ClearDelivery
    | Custom(result: Context)
  {
    function Apply(base: Context): Context {
      match this
      case SetChange(slug) => base.(changeSlug := slug, state := Active)
      case ClearChange => base.(changeSlug := "", state := Active)
      case SetDelivery(id) => base.(deliveryId := id, state := Active)
      case ClearDelivery => base.(deliveryId := "", state := Active)
      case Custom(result) => result
    }
  }

  datatype ReserveRequest = ReserveRequest(
    operationId: string, subject: Subject, allowClosedContexts: bool, allowActiveSessions: bool,
    ownerPid: int, attemptToken: string, phase: string)

  datatype MarkRequest = MarkRequest(
    operationId: string, subject: Subject, subjectHash: string, attemptToken: string,
    allowMissingReservation: bool)

  // ---------- keys and lookups ----------

  function ContextKey(repository: string, worktree: string, workSession: string): string {
    PairKey(repository, PairKey(worktree, workSession))
  }

  function KeyOf(c: Context): string {
    ContextKey(c.repositoryId, c.worktreeId, c.workSessionId)
  }

  function ClaimKey(s: Subject): string {
    PairKey(s.repositoryId, s.worktreeId)
  }

  // Lookup with a repository: the composite key, else a bare worktree key.
  function OwnKey<D>(claims: map<string, Claim<D>>, worktree: string, repository: string): Option<string> {
    if PairKey(repository, worktree) in claims then Some(PairKey(repository, worktree))
    else if worktree in claims then Some(worktree)
    else None
  }

  // Lookup without a repository: a bare worktree key, else some entry of that worktree.
  ghost function AnyKey<D>(claims: map<string, Claim<D>>, worktree: string): Option<string> {
    if worktree in claims then Some(worktree)
    else if k :| k in claims && claims[k].subject.worktreeId == worktree then Some(k)
    else None
  }

  // What the callers chain: with the repository first, then without it.
  ghost function FindClaim<D>(claims: map<string, Claim<D>>, worktree: string, repository: string): Option<Claim<D>> {
    var own := OwnKey(claims, worktree, repository);
    var any := AnyKey(claims, worktree);
    if own.Some? then Some(claims[own.value]) else if any.Some? then Some(claims[any.value]) else None
  }

  function ActiveOn(r: Registry, worktree: string): map<string, Context> {
    map k | k in r.contexts && r.contexts[k].state == Active && r.contexts[k].worktreeId == worktree
      :: r.contexts[k]
  }

  predicate SessionTouches(session: Session, workSession: string, path: string) {
    session.active
    && ((workSession != "" && session.workSessionId == workSession)
        || (path != "" && session.repoRoot == path))
  }

  function SessionsOf(r: Registry, workSession: string, path: string): map<string, Session> {
    map k | k in r.sessions && SessionTouches(r.sessions[k], workSession, path) :: r.sessions[k]
  }

  function CloseSessions(sessions: map<string, Session>, workSession: string, path: string): map<string, Session> {
    map k | k in sessions ::
      if SessionTouches(sessions[k], workSession, path) then sessions[k].(active := false) else sessions[k]
  }

  function StoredSubject(s: Subject): (stored: Subject)
    ensures stored.repositoryId == s.repositoryId && stored.worktreeId == s.worktreeId
  {
    s.(workSessionId := Cut(s.workSessionId, 160),
       changeSlug := Cut(s.changeSlug, 160),
       actorContextId := Cut(s.actorContextId, 160),
       worktreePath := Cut(s.worktreePath, 1024),
       mode := Cut(s.mode, 32),
       authority := Cut(s.authority, 240),
       head := Cut(s.head, 80),
       slug := Cut(s.slug, 160),
       pullRequestNumber := Cut(s.pullRequestNumber, 80),
       pullRequestRepository := Cut(s.pullRequestRepository, 240),
       headRefOid := Cut(s.headRefOid, 160),
       mergeCommitOid := Cut(s.mergeCommitOid, 160))
  }

  predicate ValidClaimIds(operationId: string, s: Subject) {
    IsId(operationId) && IsId(s.projectId) && IsId(s.repositoryId) && IsId(s.worktreeId)
  }

  // ---------- commit guards of the registry writer ----------

  predicate ReservationGuard(prev: Registry, next: Registry, op: string) {
    forall k | k in prev.reservations ::
      var held := prev.reservations[k];
      op == held.operationId
      || (&& ActiveOn(prev, held.subject.worktreeId) == ActiveOn(next, held.subject.worktreeId)
          && SessionsOf(prev, held.subject.workSessionId, held.subject.worktreePath)
             == SessionsOf(next, held.subject.workSessionId, held.subject.worktreePath)
          && k in next.reservations && next.reservations[k] == held)
  }

  predicate SameTerminalIdentity(next: Registry, k: string, t: Tombstone) {
    && k in next.tombstones
    && var n := next.tombstones[k];
    && n.operationId == t.operationId && n.subject == t.subject && n.detail == t.detail
    && (n.attemptToken == t.attemptToken
        || (&& n.attemptToken != ""
            && ClaimKey(t.subject) in next.reservations
            && next.reservations[ClaimKey(t.subject)].operationId == t.operationId
            && next.reservations[ClaimKey(t.subject)].attemptToken == n.attemptToken))
  }

  predicate TombstoneGuard(prev: Registry, next: Registry, op: string) {
    forall k | k in prev.tombstones ::
      var t := prev.tombstones[k];
      || (&& ActiveOn(prev, t.subject.worktreeId) == ActiveOn(next, t.subject.worktreeId)
          && SessionsOf(prev, t.subject.workSessionId, t.subject.worktreePath)
             == SessionsOf(next, t.subject.workSessionId, t.subject.worktreePath)
          && k in next.tombstones && next.tombstones[k] == t)
      || (SameTerminalIdentity(next, k, t) && op == t.operationId)
  }

  ghost function Commit(prev: Registry, proposed: Outcome, op: string): Outcome {
    if proposed.Thrown? then proposed
    else if !ReservationGuard(prev, proposed.next, op) then Thrown(CleanupReserved)
    else if !TombstoneGuard(prev, proposed.next, op) then Thrown(CleanupTerminal)
    else proposed
  }

  // ---------- the five transactions ----------

  function FreshContext(id: Identity): Context {
    Context(id.projectId, id.repositoryId, id.worktreeId, id.workSessionId, "",
            Cut(id.branch, 240), Cut(id.headSha, 80), "", Active, 0)
  }

  function SealContext(updated: Context, id: Identity, revision: nat): Context {
    updated.(branch := if Cut(id.branch, 240) != "" then Cut(id.branch, 240) else Cut(updated.branch, 240),
             headSha := if Cut(id.headSha, 80) != "" then Cut(id.headSha, 80) else Cut(updated.headSha, 80),
             revision := revision + 1)
  }

  predicate SameIdentity(c: Context, id: Identity) {
    c.projectId == id.projectId && c.repositoryId == id.repositoryId
    && c.worktreeId == id.worktreeId && c.workSessionId == id.workSessionId
  }

  ghost predicate ClaimedByOther<D>(claims: map<string, Claim<D>>, worktree: string, repository: string, op: string) {
    var c := FindClaim(claims, worktree, repository);
    c.Some? && c.value.operationId != op
  }

  function WithContext(r: Registry, key: string, c: Context): Registry {
    r.(contexts := r.contexts[key := c], revision := r.revision + 1)
  }

  ghost function MutateTx(r: Registry, id: Identity, update: Update, expected: Option<nat>, op: string): Outcome {
    if !id.Valid() then Thrown(IdentityInvalid)
    else if ClaimedByOther(r.tombstones, id.worktreeId, id.repositoryId, op) then
      Thrown(CleanupTerminal)
    else if ClaimedByOther(r.reservations, id.worktreeId, id.repositoryId, op) then
      Thrown(CleanupReserved)
    else
      var key := ContextKey(id.repositoryId, id.worktreeId, id.workSessionId);
      var revision := if key in r.contexts then r.contexts[key].revision else 0;
      if expected.Some? && expected.value != revision then Thrown(Stale)
      else
        var updated := update.Apply(if key in r.contexts then r.contexts[key] else FreshContext(id));
        if !SameIdentity(updated, id) then Thrown(IdentityMismatch)
        else Committed(WithContext(r, key, SealContext(updated, id, revision)))
  }

  predicate TerminalPhase(phase: string) {
    phase == "failed" || phase == "finalized"
  }

  // The same operation may take its reservation over: same attempt, finished attempt, or dead owner.
  predicate MayRetake(held: Reservation, q: ReserveRequest, live: set<int>) {
    || (q.attemptToken != "" && held.attemptToken != "" && q.attemptToken == held.attemptToken)
    || TerminalPhase(held.detail.phase)
    || held.detail.ownerPid <= 0 || held.detail.ownerPid !in live
  }

  function SnapshotOf(contexts: map<string, Context>): set<SnapshotEntry> {
    set k | k in contexts :: SnapshotEntry(k, contexts[k])
  }

  function ChangesOf(contexts: map<string, Context>): set<string> {
    set k | k in contexts && contexts[k].changeSlug != "" :: contexts[k].changeSlug
  }

  predicate ContextsExpected(active: map<string, Context>, q: ReserveRequest) {
    || (q.allowClosedContexts && active == map[] && q.subject.targetContextIds != {})
    || (&& active.Keys == q.subject.targetContextIds
        && ChangesOf(active) == q.subject.targetChangeSlugs
        && (q.subject.targetSnapshot == multiset{} || q.subject.targetSnapshot == multiset(SnapshotOf(active))))
  }

  function NewReservation(q: ReserveRequest): Reservation {
    Claim(q.operationId, StoredSubject(q.subject), Cut(q.attemptToken, 160), Lease(q.ownerPid, Cut(q.phase, 48)))
  }

  function WithReservation(r: Registry, q: ReserveRequest): Registry {
    r.(sessions := CloseSessions(r.sessions, q.subject.workSessionId, q.subject.worktreePath),
       reservations := r.reservations[ClaimKey(q.subject) := NewReservation(q)])
  }

  ghost function ReserveTx(r: Registry, q: ReserveRequest, live: set<int>): Outcome {
    var s := q.subject;
    if !ValidClaimIds(q.operationId, s) then Thrown(IdentityInvalid)
    else
      var terminal := FindClaim(r.tombstones, s.worktreeId, s.repositoryId);
      var existing := OwnKey(r.reservations, s.worktreeId, s.repositoryId);
      var foreign := AnyKey(r.reservations, s.worktreeId);
      var active := ActiveOn(r, s.worktreeId);
      var touched := SessionsOf(r, s.workSessionId, s.worktreePath);
      if terminal.Some? && terminal.value.subject.repositoryId != s.repositoryId then
        Thrown(TerminalConflict)
      else if terminal.Some? && terminal.value.operationId != q.operationId then
        Thrown(CleanupTerminal)
      else if foreign.Some? && foreign != existing then Thrown(CleanupReserved)
      else if existing.Some? && r.reservations[existing.value].operationId != q.operationId then Thrown(Busy)
      else if existing.Some? && !MayRetake(r.reservations[existing.value], q, live) then Thrown(Busy)
      else if exists k :: k in active && active[k].repositoryId != s.repositoryId then Thrown(CleanupReserved)
      else if !ContextsExpected(active, q) then Thrown(ContextMismatch)
      else if touched != map[] && !q.allowActiveSessions then Thrown(SessionReserved)
      else Committed(WithReservation(r, q))
  }

  function WithPhase(r: Registry, key: string, phase: string): Registry
    requires key in r.reservations
  {
    var held := r.reservations[key];
    r.(reservations := r.reservations[key := held.(detail := held.detail.(phase := Cut(phase, 48)))])
  }

  function PhaseTx(r: Registry, op: string, repository: string, worktree: string, token: string,
      phase: string): Outcome {
    var key := PairKey(repository, worktree);
    if !IsId(op) || !IsId(repository) || !IsId(worktree) then Thrown(IdentityInvalid)
    else if key !in r.reservations || r.reservations[key].operationId != op
            || (token != "" && r.reservations[key].attemptToken != token) then Thrown(Busy)
    else Committed(WithPhase(r, key, phase))
  }

  function KeysHeldBy(r: Registry, op: string): set<string> {
    set k | k in r.reservations && r.reservations[k].operationId == op
  }

  predicate Releasable(held: Reservation, op: string, token: string) {
    held.operationId == op && (held.attemptToken == "" || held.attemptToken == token)
  }

  // Without both ids the operation must hold exactly one reservation.
  function ReleaseCandidates(r: Registry, op: string, repository: string, worktree: string): set<string> {
    if repository != "" && worktree != "" then {PairKey(repository, worktree)}
    else if |KeysHeldBy(r, op)| == 1 then KeysHeldBy(r, op)
    else {}
  }

  function Released(r: Registry, op: string, repository: string, worktree: string, token: string): set<string> {
    set k | k in ReleaseCandidates(r, op, repository, worktree)
            && k in r.reservations && Releasable(r.reservations[k], op, token)
  }

  function ReleaseTx(r: Registry, op: string, repository: string, worktree: string, token: string): Outcome {
    if op == "" then Committed(r)
    else
      Committed(r.(reservations := r.reservations - Released(r, op, repository, worktree, token)))
  }

  // Here the first lookup has no bare-key fallback.
  ghost function FindReservation(r: Registry, s: Subject): Option<Reservation> {
    var any := AnyKey(r.reservations, s.worktreeId);
    if ClaimKey(s) in r.reservations then Some(r.reservations[ClaimKey(s)])
    else if any.Some? then Some(r.reservations[any.value]) else None
  }

  function WithTombstone(r: Registry, q: MarkRequest): Registry {
    r.(tombstones := r.tombstones[ClaimKey(q.subject) :=
      Claim(q.operationId, StoredSubject(q.subject), Cut(q.attemptToken, 160), Seal(Cut(q.subjectHash, 240)))])
  }

  ghost function MarkTx(r: Registry, q: MarkRequest): Outcome {
    var s := q.subject;
    if !ValidClaimIds(q.operationId, s) then Thrown(IdentityInvalid)
    else if q.subjectHash == "" then Thrown(SubjectInvalid)
    else
      var existing := FindClaim(r.tombstones, s.worktreeId, s.repositoryId);
      var reserved := FindReservation(r, s);
      if existing.Some? && existing.value.operationId != q.operationId then Thrown(TerminalConflict)
      else if reserved.None? && !q.allowMissingReservation && existing.None? then Thrown(Busy)
      else if reserved.Some? && !Releasable(reserved.value, q.operationId, q.attemptToken) then Thrown(Busy)
      else if reserved.Some? && reserved.value.subject != s then Thrown(CasConflict)
      else if existing.Some? && !MayRemark(existing.value, reserved, q) then
        Thrown(TerminalConflict)
      else if ActiveOn(r, s.worktreeId) != map[] then Thrown(ContextMismatch)
      else Committed(WithTombstone(r, q))
  }

  // Same subject, and the same owner or the live owner of the reservation adopting the tombstone.
  predicate MayRemark(t: Tombstone, reserved: Option<Reservation>, q: MarkRequest) {
    && t.detail.subjectHash == q.subjectHash && t.subject == q.subject
    && (|| t.attemptToken == "" || t.attemptToken == q.attemptToken
        || (&& reserved.Some?
            && reserved.value.operationId == q.operationId
            && reserved.value.attemptToken == q.attemptToken
            && t.subject == reserved.value.subject))
  }

  // ---------- calls and runs ----------

  datatype Call =
    | Mutate(id: Identity, update: Update, expected: Option<nat>, cleanupOp: string)
    | Reserve(request: ReserveRequest)
    | Phase(op: string, repository: string, worktree: string, token: string, phase: string)
    | Release(op: string, repository: string, worktree: string, token: string)
    | Mark(mark: MarkRequest)
  {
    function Op(): string {
      match this
      case Mutate(_, _, _, op) => op
      case Reserve(q) => q.operationId
      case Phase(op, _, _, _, _) => op
      case Release(op, _, _, _) => op
      case Mark(q) => q.operationId
    }
  }

  // One call, made while the processes `live` are alive.
  datatype Event = Event(call: Call, live: set<int>)

  ghost function Transact(r: Registry, e: Event): Outcome {
    var proposed := match e.call
      case Mutate(id, update, expected, op) => MutateTx(r, id, update, expected, op)
      case Reserve(q) => ReserveTx(r, q, e.live)
      case Phase(op, repository, worktree, token, phase) => PhaseTx(r, op, repository, worktree, token, phase)
      case Release(op, repository, worktree, token) => ReleaseTx(r, op, repository, worktree, token)
      case Mark(q) => MarkTx(r, q);
    Commit(r, proposed, e.call.Op())
  }

  // A call that throws leaves the registry as it was.
  ghost function Next(r: Registry, e: Event): Registry {
    var o := Transact(r, e);
    if o.Committed? then o.next else r
  }

  ghost function After(r: Registry, events: seq<Event>): Registry {
    if events == [] then r else Next(After(r, events[..|events| - 1]), events[|events| - 1])
  }
}
