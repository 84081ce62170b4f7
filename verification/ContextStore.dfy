/** The registry as the source runs it: an object whose transactions edit a draft and write it back. */
module ContextStore {
  import opened Common
  import opened ContextModel
  import opened ContextInvariants

  datatype Result<T> = Ok(value: T) | Err(error: Error)

  // The session id stands for a work session when no work session is given.
  datatype Query = Query(projectId: string, repositoryId: string, worktreeId: string,
                         workSessionId: string, sessionId: string)

  method FindAny<D>(claims: map<string, Claim<D>>, worktree: string) returns (key: Option<string>)
    requires ClaimsPlaced(claims) && IsId(worktree)
    ensures key == AnyKey(claims, worktree)
  {
    FindExact(claims, worktree, worktree);
    if worktree in claims {
      return Some(worktree);
    }
    var matching := set k | k in claims && claims[k].subject.worktreeId == worktree;
    if matching == {} {
      assert forall j | j in claims :: j !in matching;
      return None;
    }
    var k :| k in matching;
    key := Some(k);
  }

  /** The claim of the worktree, looked up with the repository and then without it. */
  method Find<D>(claims: map<string, Claim<D>>, worktree: string, repository: string)
    returns (found: Option<Claim<D>>)
    requires ClaimsPlaced(claims) && IsId(worktree) && IsId(repository)
    ensures found == FindClaim(claims, worktree, repository)
  {
    var key := OwnKey(claims, worktree, repository);
    if key.None? {
      key := FindAny(claims, worktree);
    }
    found := if key.Some? then Some(claims[key.value]) else None;
  }

  /** Closes the active sessions of the work session or path, one after the other. */
  method CloseAll(sessions: map<string, Session>, workSession: string, path: string)
    returns (closed: map<string, Session>)
    ensures closed == CloseSessions(sessions, workSession, path)
  {
    closed := sessions;
    var todo := set k | k in sessions && SessionTouches(sessions[k], workSession, path);
    while todo != {}
      invariant closed.Keys == sessions.Keys
      invariant todo <= set k | k in sessions && SessionTouches(sessions[k], workSession, path)
      invariant forall k | k in sessions ::
        closed[k] == if SessionTouches(sessions[k], workSession, path) && k !in todo
                     then sessions[k].(active := false) else sessions[k]
      decreases todo
    {
      var k :| k in todo;
      closed := closed[k := sessions[k].(active := false)];
      todo := todo - {k};
    }
  }

  // The registry and the answer are those of the outcome; after an error nothing has changed.
  ghost predicate Yields(before: Registry, o: Outcome, after: Registry, result: Result<Registry>) {
    match o
    case Committed(next) => after == next && result == Ok(next)
    case Thrown(error) => after == before && result == Err(error)
  }

  /** Each method below yields the transaction of its call, and so keeps the invariant. */
  lemma YieldsKeeps(before: Registry, e: Event, after: Registry, result: Result<Registry>)
    requires Inv(before) && Yields(before, Transact(before, e), after, result)
    ensures Inv(after) && after == Next(before, e)
  {
    StepDoes(before, e);
    hide Transact, Inv, Effect;
    StepKeeps(before, e, Next(before, e));
  }

  class SessionRegistry {
    var activeContexts: map<string, Context>
    var cleanupReservations: map<string, Reservation>
    var cleanupTombstones: map<string, Tombstone>
    var sessions: map<string, Session>
    var activeContextsRevision: nat

    function State(): Registry
      reads this
    {
      Registry(activeContexts, cleanupReservations, cleanupTombstones, sessions, activeContextsRevision)
    }

    constructor ()
      ensures State() == EMPTY && Inv(State())
    {
      activeContexts, cleanupReservations, cleanupTombstones := map[], map[], map[];
      sessions := map[];
      activeContextsRevision := 0;
    }

    /** Writes a draft back unless it breaks a reservation or a tombstone of another operation. */
    method WriteBack(draft: Registry, op: string) returns (result: Result<Registry>)
      modifies this
      ensures Yields(old(State()), Commit(old(State()), Committed(draft), op), State(), result)
    {
      hide ReservationGuard, TombstoneGuard;
      if !ReservationGuard(State(), draft, op) {
        return Err(CleanupReserved);
      }
      if !TombstoneGuard(State(), draft, op) {
        return Err(CleanupTerminal);
      }
      activeContexts, cleanupReservations, cleanupTombstones :=
        draft.contexts, draft.reservations, draft.tombstones;
      sessions := draft.sessions;
      activeContextsRevision := draft.revision;
      result := Ok(draft);
    }

    method MutateActiveContext(id: Identity, update: Update, expected: Option<nat>, cleanupOp: string)
      returns (result: Result<Registry>)
      requires Inv(State())
      modifies this
      ensures Yields(old(State()),
              Commit(old(State()), MutateTx(old(State()), id, update, expected, cleanupOp), cleanupOp),
                     State(), result)
    {
      hide ReservationGuard, TombstoneGuard, FindClaim, PairKey, SealContext;
      if !id.Valid() {
        return Err(IdentityInvalid);
      }
      var terminal := Find(cleanupTombstones, id.worktreeId, id.repositoryId);
      if terminal.Some? && terminal.value.operationId != cleanupOp {
        return Err(CleanupTerminal);
      }
      var reservation := Find(cleanupReservations, id.worktreeId, id.repositoryId);
      if reservation.Some? && reservation.value.operationId != cleanupOp {
        return Err(CleanupReserved);
      }
      var key := ContextKey(id.repositoryId, id.worktreeId, id.workSessionId);
      hide Inv;
      var base, revision := FreshContext(id), 0;
      if key in activeContexts {
        base, revision := activeContexts[key], activeContexts[key].revision;
      }
      if expected.Some? && expected.value != revision {
        return Err(Stale);
      }
      var updated := update.Apply(base);
      if !SameIdentity(updated, id) {
        return Err(IdentityMismatch);
      }
      var draft := State();
      draft := draft.(revision := draft.revision + 1);
      draft := draft.(contexts := draft.contexts[key := SealContext(updated, id, revision)]);
      result := WriteBack(draft, cleanupOp);
    }

    method ReserveActiveContextCleanup(q: ReserveRequest, live: set<int>) returns (result: Result<Registry>)
      requires Inv(State())
      modifies this
      ensures Yields(old(State()), Commit(old(State()), ReserveTx(old(State()), q, live), q.operationId), State(),
              result)
    {
      hide ReservationGuard, TombstoneGuard, FindClaim, PairKey, StoredSubject, CloseSessions,
           ContextsExpected, MayRetake, SessionsOf, ActiveOn, AnyKey;
      var s := q.subject;
      if !ValidClaimIds(q.operationId, s) {
        return Err(IdentityInvalid);
      }
      var terminal := Find(cleanupTombstones, s.worktreeId, s.repositoryId);
      if terminal.Some? && terminal.value.subject.repositoryId != s.repositoryId {
        return Err(TerminalConflict);
      }
      if terminal.Some? && terminal.value.operationId != q.operationId {
        return Err(CleanupTerminal);
      }
      var existing := OwnKey(cleanupReservations, s.worktreeId, s.repositoryId);
      var foreign := FindAny(cleanupReservations, s.worktreeId);
      hide Inv;
      if foreign.Some? && foreign != existing {
        return Err(CleanupReserved);
      }
      if existing.Some? && cleanupReservations[existing.value].operationId != q.operationId {
        return Err(Busy);
      }
      if existing.Some? && !MayRetake(cleanupReservations[existing.value], q, live) {
        return Err(Busy);
      }
      var active := ActiveOn(State(), s.worktreeId);
      if exists k :: k in active && active[k].repositoryId != s.repositoryId {
        return Err(CleanupReserved);
      }
      if !ContextsExpected(active, q) {
        return Err(ContextMismatch);
      }
      if SessionsOf(State(), s.workSessionId, s.worktreePath) != map[] && !q.allowActiveSessions {
        return Err(SessionReserved);
      }
      var closed := CloseAll(sessions, s.workSessionId, s.worktreePath);
      var draft := State();
      draft := draft.(sessions := closed);
      draft := draft.(reservations := draft.reservations[ClaimKey(s) := NewReservation(q)]);
      result := WriteBack(draft, q.operationId);
    }

    method UpdateActiveContextCleanupPhase(op: string, repository: string, worktree: string, token: string,
        phase: string)
      returns (result: Result<Registry>)
      modifies this
      ensures Yields(old(State()),
              Commit(old(State()), PhaseTx(old(State()), op, repository, worktree, token, phase), op),
                     State(), result)
    {
      hide ReservationGuard, TombstoneGuard, PairKey;
      if !IsId(op) || !IsId(repository) || !IsId(worktree) {
        return Err(IdentityInvalid);
      }
      var key := PairKey(repository, worktree);
      if key !in cleanupReservations || cleanupReservations[key].operationId != op
         || (token != "" && cleanupReservations[key].attemptToken != token) {
        return Err(Busy);
      }
      var draft := State();
      draft := WithPhase(draft, key, phase);
      result := WriteBack(draft, op);
    }

    method ReleaseActiveContextCleanup(op: string, repository: string, worktree: string, token: string)
      returns (result: Result<Registry>)
      modifies this
      ensures Yields(old(State()), Commit(old(State()), ReleaseTx(old(State()), op, repository, worktree, token), op),
                     State(), result)
    {
      hide ReservationGuard, TombstoneGuard, PairKey;
      var reservations := cleanupReservations;
      if op != "" {
        var candidates := ReleaseCandidates(State(), op, repository, worktree);
        ghost var all := candidates;
        while candidates != {}
          invariant candidates <= all
          invariant reservations
            == cleanupReservations - (set k | k in all - candidates && k in cleanupReservations
                                              && Releasable(cleanupReservations[k], op, token))
          decreases candidates
        {
          var key :| key in candidates;
          if key in reservations && Releasable(reservations[key], op, token) {
            reservations := reservations - {key};
          }
          candidates := candidates - {key};
        }
        assert all - candidates == all;
      }
      result := WriteBack(State().(reservations := reservations), op);
    }

    method FindOwned(s: Subject) returns (reservation: Option<Reservation>)
      requires ClaimsPlaced(cleanupReservations) && IsId(s.worktreeId)
      ensures reservation == FindReservation(State(), s)
    {
      if ClaimKey(s) in cleanupReservations {
        return Some(cleanupReservations[ClaimKey(s)]);
      }
      var any := FindAny(cleanupReservations, s.worktreeId);
      reservation := if any.Some? then Some(cleanupReservations[any.value]) else None;
    }

    method MarkActiveContextCleanupTerminal(q: MarkRequest) returns (result: Result<Registry>)
      requires Inv(State())
      modifies this
      ensures Yields(old(State()), Commit(old(State()), MarkTx(old(State()), q), q.operationId), State(), result)
    {
      hide ReservationGuard, TombstoneGuard, FindClaim, FindReservation, PairKey, StoredSubject,
           Releasable, MayRemark, ActiveOn;
      var s := q.subject;
      if !ValidClaimIds(q.operationId, s) {
        return Err(IdentityInvalid);
      }
      if q.subjectHash == "" {
        return Err(SubjectInvalid);
      }
      var existing := Find(cleanupTombstones, s.worktreeId, s.repositoryId);
      if existing.Some? && existing.value.operationId != q.operationId {
        return Err(TerminalConflict);
      }
      var reservation := FindOwned(s);
      hide Inv;
      if reservation.None? && !q.allowMissingReservation && existing.None? {
        return Err(Busy);
      }
      if reservation.Some? {
        if !Releasable(reservation.value, q.operationId, q.attemptToken) {
          return Err(Busy);
        }
        if reservation.value.subject != s {
          return Err(CasConflict);
        }
      }
      if existing.Some? && !MayRemark(existing.value, reservation, q) {
        return Err(TerminalConflict);
      }
      if ActiveOn(State(), s.worktreeId) != map[] {
        return Err(ContextMismatch);
      }
      var draft := WithTombstone(State(), q);
      result := WriteBack(draft, q.operationId);
    }

    // The active contexts a query matches.
    function Candidates(q: Query, workSession: string): set<string>
      reads this
    {
      set k | k in activeContexts && activeContexts[k].state == Active
              && activeContexts[k].projectId == q.projectId
              && activeContexts[k].repositoryId == q.repositoryId
              && activeContexts[k].worktreeId == q.worktreeId
              && (workSession == "" || activeContexts[k].workSessionId == workSession)
    }

    lemma SessionIsUnambiguous(q: Query, workSession: string)
      requires Inv(State()) && workSession != ""
      ensures Candidates(q, workSession) <= {ContextKey(q.repositoryId, q.worktreeId, workSession)}
      ensures |Candidates(q, workSession)| <= 1
    {
      var key := ContextKey(q.repositoryId, q.worktreeId, workSession);
      assert Candidates(q, workSession) == {} || Candidates(q, workSession) == {key};
    }

    /** With a work session the answer is the one active context of that identity, or that there is none. */
    method ResolveActiveContext(q: Query) returns (result: Result<Context>)
      requires Inv(State())
      ensures result.Ok? ==>
        var c := result.value;
        && KeyOf(c) in activeContexts && activeContexts[KeyOf(c)] == c && c.state == Active
        && c.projectId == q.projectId && c.repositoryId == q.repositoryId && c.worktreeId == q.worktreeId
      ensures IsId(q.projectId) && IsId(q.repositoryId) && IsId(q.worktreeId) && q.workSessionId != "" ==>
        var w := Cut(q.workSessionId, 160);
        var key := ContextKey(q.repositoryId, q.worktreeId, w);
        result == if key in activeContexts && activeContexts[key].state == Active
                     && activeContexts[key].projectId == q.projectId
                  then Ok(activeContexts[key]) else Err(NotFound)
      ensures result == Err(Ambiguous) ==> q.workSessionId == "" && q.sessionId == ""
    {
      if !IsId(q.projectId) || !IsId(q.repositoryId) || !IsId(q.worktreeId) {
        return Err(IdentityInvalid);
      }
      var workSession := Cut(q.workSessionId, 160);
      var sessionId := Cut(q.sessionId, 160);
      if workSession == "" && sessionId != "" {
        if sessionId !in sessions || !sessions[sessionId].active || sessions[sessionId].workSessionId == "" {
          return Err(NotFound);
        }
        workSession := sessions[sessionId].workSessionId;
      }
      var candidates := Candidates(q, workSession);
      ghost var key := ContextKey(q.repositoryId, q.worktreeId, workSession);
      if key in activeContexts {
        ghost var c := activeContexts[key];
        ContextKeyInjective(q.repositoryId, q.worktreeId, workSession,
                            c.repositoryId, c.worktreeId, c.workSessionId);
        assert c.repositoryId == q.repositoryId && c.worktreeId == q.worktreeId;
      }
      hide ContextKey;
      if workSession != "" {
        SessionIsUnambiguous(q, workSession);
      }
      if candidates == {} {
        assert key !in candidates;
        return Err(NotFound);
      }
      if |candidates| > 1 {
        return Err(Ambiguous);
      }
      var k :| k in candidates;
      result := Ok(activeContexts[k]);
    }
  }
}
