/** Exactly when each cleanup operation commits, by guards over the registry, and exactly what it then writes. */
module ContextGuards {
  import opened Common
  import opened ContextModel
  import opened ContextInvariants
  import opened ContextRuns
  import opened ContextEdges

  // ---------- what is written ----------

  // The stored text is the given one, up to the limit.
  predicate StoredText(stored: string, given: string, limit: nat) {
    stored <= given && |stored| == if |given| < limit then |given| else limit
  }

  predicate StoredTexts(n: Subject, s: Subject) {
    && StoredText(n.workSessionId, s.workSessionId, 160) && StoredText(n.changeSlug, s.changeSlug, 160)
    && StoredText(n.actorContextId, s.actorContextId, 160) && StoredText(n.worktreePath, s.worktreePath, 1024)
    && StoredText(n.mode, s.mode, 32) && StoredText(n.authority, s.authority, 240)
    && StoredText(n.head, s.head, 80) && StoredText(n.slug, s.slug, 160)
    && StoredText(n.pullRequestNumber, s.pullRequestNumber, 80)
    && StoredText(n.pullRequestRepository, s.pullRequestRepository, 240)
    && StoredText(n.headRefOid, s.headRefOid, 160) && StoredText(n.mergeCommitOid, s.mergeCommitOid, 160)
  }

  // Ids and targets are stored as they are.
  predicate StoredSubjectIs(n: Subject, s: Subject) {
    && n.projectId == s.projectId && n.repositoryId == s.repositoryId && n.worktreeId == s.worktreeId
    && n.targetContextIds == s.targetContextIds && n.targetChangeSlugs == s.targetChangeSlugs
    && n.targetSnapshot == s.targetSnapshot && StoredTexts(n, s)
  }

  lemma StoredExactly(s: Subject, n: Subject)
    ensures StoredSubjectIs(n, s) <==> n == StoredSubject(s)
  {
    if StoredSubjectIs(n, s) {
      var m := StoredSubject(s);
      TextOnce(n.workSessionId, s.workSessionId, 160);
      TextOnce(n.changeSlug, s.changeSlug, 160);
      TextOnce(n.actorContextId, s.actorContextId, 160);
      TextOnce(n.worktreePath, s.worktreePath, 1024);
      TextOnce(n.mode, s.mode, 32);
      TextOnce(n.authority, s.authority, 240);
      TextOnce(n.head, s.head, 80);
      TextOnce(n.slug, s.slug, 160);
      TextOnce(n.pullRequestNumber, s.pullRequestNumber, 80);
      TextOnce(n.pullRequestRepository, s.pullRequestRepository, 240);
      TextOnce(n.headRefOid, s.headRefOid, 160);
      TextOnce(n.mergeCommitOid, s.mergeCommitOid, 160);
      hide Cut, StoredText;
    }
  }

  lemma TextOnce(stored: string, given: string, limit: nat)
    requires StoredText(stored, given, limit)
    ensures stored == Cut(given, limit)
  {
  }

  // ---------- reserving ----------

  predicate ActiveAt(r: Registry, k: string, worktree: string) {
    k in r.contexts && r.contexts[k].state == Active && r.contexts[k].worktreeId == worktree
  }

  // The session is active and belongs to the work session or stands in the directory.
  predicate Covers(session: Session, workSession: string, path: string) {
    session.active
    && ((workSession != "" && session.workSessionId == workSession) || (path != "" && session.repoRoot == path))
  }

  ghost predicate AimsAtClosed(r: Registry, q: ReserveRequest) {
    && q.allowClosedContexts && (exists id :: id in q.subject.targetContextIds)
    && forall k :: !ActiveAt(r, k, q.subject.worktreeId)
  }

  // Targets are exactly the active contexts of the worktree, their changes, and, if given, their state.
  ghost predicate AimsAtActive(r: Registry, q: ReserveRequest) {
    var s, w := q.subject, q.subject.worktreeId;
    && (forall k :: k in s.targetContextIds <==> ActiveAt(r, k, w))
    && (forall slug :: slug in s.targetChangeSlugs
                       <==> slug != "" && exists k :: ActiveAt(r, k, w) && r.contexts[k].changeSlug == slug)
    && (s.targetSnapshot == multiset{}
        || forall entry :: s.targetSnapshot[entry]
                           == if ActiveAt(r, entry.key, w) && r.contexts[entry.key] == entry.context then 1 else 0)
  }

  // The reservation is the operation's own, and its attempt is this one, over, or dead.
  predicate MayTakeOver(held: Reservation, q: ReserveRequest, live: set<int>) {
    && held.operationId == q.operationId && held.subject.repositoryId == q.subject.repositoryId
    && (|| (held.attemptToken == q.attemptToken && q.attemptToken != "")
        || held.detail.phase in {"failed", "finalized"}
        || held.detail.ownerPid <= 0 || held.detail.ownerPid !in live)
  }

  // No other operation's claim covers the session.
  ghost predicate Unshared(r: Registry, session: Session, op: string) {
    && (forall j | j in r.reservations && r.reservations[j].operationId != op ::
          !Covers(session, r.reservations[j].subject.workSessionId, r.reservations[j].subject.worktreePath))
    && (forall j | j in r.tombstones && r.tombstones[j].operationId != op ::
          !Covers(session, r.tombstones[j].subject.workSessionId, r.tombstones[j].subject.worktreePath))
  }

  ghost predicate MayPropose(r: Registry, q: ReserveRequest, live: set<int>) {
    var s := q.subject;
    && IsId(q.operationId) && IsId(s.projectId) && IsId(s.repositoryId) && IsId(s.worktreeId)
    && (forall j | j in r.tombstones && r.tombstones[j].subject.worktreeId == s.worktreeId ::
          r.tombstones[j].operationId == q.operationId && r.tombstones[j].subject.repositoryId == s.repositoryId)
    && (forall j | j in r.reservations && r.reservations[j].subject.worktreeId == s.worktreeId ::
          MayTakeOver(r.reservations[j], q, live))
    && (forall k | ActiveAt(r, k, s.worktreeId) :: r.contexts[k].repositoryId == s.repositoryId)
    && (AimsAtClosed(r, q) || AimsAtActive(r, q))
    && (forall k | k in r.sessions && Covers(r.sessions[k], s.workSessionId, s.worktreePath) :: q.allowActiveSessions)
  }

  // Every session that the reservation closes is its own.
  ghost predicate ClosesOwn(r: Registry, q: ReserveRequest) {
    forall k | k in r.sessions && Covers(r.sessions[k], q.subject.workSessionId, q.subject.worktreePath) ::
      Unshared(r, r.sessions[k], q.operationId)
  }

  ghost predicate MayReserve(r: Registry, q: ReserveRequest, live: set<int>) {
    MayPropose(r, q, live) && ClosesOwn(r, q)
  }

  // From r to n exactly the covered sessions are closed and exactly this reservation is written.
  ghost predicate Reserved(r: Registry, q: ReserveRequest, n: Registry) {
    var s, key := q.subject, PairKey(q.subject.repositoryId, q.subject.worktreeId);
    && n.contexts == r.contexts && n.tombstones == r.tombstones && n.revision == r.revision
    && n.sessions.Keys == r.sessions.Keys
    && (forall k | k in r.sessions ::
          n.sessions[k] == if Covers(r.sessions[k], s.workSessionId, s.worktreePath)
                           then r.sessions[k].(active := false) else r.sessions[k])
    && n.reservations.Keys == r.reservations.Keys + {key}
    && (forall k | k in r.reservations && k != key :: n.reservations[k] == r.reservations[k])
    && n.reservations[key].operationId == q.operationId && n.reservations[key].detail.ownerPid == q.ownerPid
    && StoredSubjectIs(n.reservations[key].subject, s)
    && StoredText(n.reservations[key].attemptToken, q.attemptToken, 160)
    && StoredText(n.reservations[key].detail.phase, q.phase, 48)
  }

  lemma ExpectedExactly(r: Registry, q: ReserveRequest)
    ensures ContextsExpected(ActiveOn(r, q.subject.worktreeId), q) <==> AimsAtClosed(r, q) || AimsAtActive(r, q)
  {
    var s := q.subject;
    var active := ActiveOn(r, s.worktreeId);
    assert forall k :: k in active <==> ActiveAt(r, k, s.worktreeId);
    assert active == map[] <==> forall k :: !ActiveAt(r, k, s.worktreeId);
    assert active.Keys == s.targetContextIds <==> forall k :: k in s.targetContextIds <==> ActiveAt(r, k, s.worktreeId);
    ChangesExactly(r, s.worktreeId, s.targetChangeSlugs);
    SnapshotExactly(r, s.worktreeId, s.targetSnapshot);
    hide ActiveOn, ActiveAt, ChangesOf, SnapshotOf;
  }

  lemma ChangesExactly(r: Registry, w: string, slugs: set<string>)
    ensures ChangesOf(ActiveOn(r, w)) == slugs
            <==> forall slug :: slug in slugs
                                <==> slug != "" && exists k :: ActiveAt(r, k, w) && r.contexts[k].changeSlug == slug
  {
    var active := ActiveOn(r, w);
    forall slug
      ensures slug in ChangesOf(active)
              <==> slug != "" && exists k :: ActiveAt(r, k, w) && r.contexts[k].changeSlug == slug
    {
      if k :| ActiveAt(r, k, w) && r.contexts[k].changeSlug == slug {
        assert k in active && active[k].changeSlug == slug;
      }
    }
    hide ChangesOf, ActiveOn, ActiveAt;
  }

  lemma SnapshotExactly(r: Registry, w: string, snapshot: multiset<SnapshotEntry>)
    ensures snapshot == multiset(SnapshotOf(ActiveOn(r, w)))
            <==> forall entry :: snapshot[entry]
                                 == if ActiveAt(r, entry.key, w) && r.contexts[entry.key] == entry.context then 1 else 0
  {
    var all := multiset(SnapshotOf(ActiveOn(r, w)));
    forall entry: SnapshotEntry
      ensures all[entry] == if ActiveAt(r, entry.key, w) && r.contexts[entry.key] == entry.context then 1 else 0
    {
      var active := ActiveOn(r, w);
      assert entry in SnapshotOf(active) <==> entry.key in active && active[entry.key] == entry.context by {
        assert entry == SnapshotEntry(entry.key, entry.context);
      }
    }
    hide SnapshotOf, ActiveOn, ActiveAt;
    if forall entry :: snapshot[entry]
                       == if ActiveAt(r, entry.key, w) && r.contexts[entry.key] == entry.context then 1 else 0 {
      assert forall entry :: snapshot[entry] == all[entry];
    }
  }

  // The claims of the worktree, looked up as the source does, and all of them.
  lemma ClaimsHere<D>(claims: map<string, Claim<D>>, worktree: string, repository: string)
    requires ClaimsPlaced(claims) && IsId(worktree) && IsId(repository)
    ensures var own, any, found := OwnKey(claims, worktree, repository), AnyKey(claims, worktree),
                                   FindClaim(claims, worktree, repository);
            && (forall j | j in claims && claims[j].subject.worktreeId == worktree ::
                  any == Some(j) && found == Some(claims[j]))
            && (any.Some? ==> any.value in claims && claims[any.value].subject.worktreeId == worktree
                              && found == Some(claims[any.value]))
            && (own.Some? ==> own == any && claims[own.value].subject.repositoryId == repository)
            && (any.None? ==> found.None?)
            && (any.Some? && claims[any.value].subject.repositoryId == repository ==> own == any)
  {
    FindExact(claims, worktree, repository);
    var any := AnyKey(claims, worktree);
    hide FindClaim, AnyKey;
    if any.Some? {
      OneClaim(claims, any.value);
      if OwnKey(claims, worktree, repository).Some? {
        IdHasNoColon(repository);
        var c := claims[any.value].subject;
        IdHasNoColon(c.repositoryId);
        assert any.value == PairKey(c.repositoryId, c.worktreeId);
        PairKeyInjective(repository, worktree, c.repositoryId, c.worktreeId);
      }
    }
  }

  lemma TombstonesAllow(r: Registry, s: Subject, op: string)
    requires Inv(r) && IsId(s.worktreeId) && IsId(s.repositoryId)
    ensures var t := FindClaim(r.tombstones, s.worktreeId, s.repositoryId);
            (t.Some? ==> t.value.subject.repositoryId == s.repositoryId && t.value.operationId == op)
            <==> forall j | j in r.tombstones && r.tombstones[j].subject.worktreeId == s.worktreeId ::
                   r.tombstones[j].operationId == op && r.tombstones[j].subject.repositoryId == s.repositoryId
  {
    ClaimsHere(r.tombstones, s.worktreeId, s.repositoryId);
    hide FindClaim, OwnKey, AnyKey;
  }

  lemma ReservationsAllow(r: Registry, q: ReserveRequest, live: set<int>)
    requires Inv(r) && IsId(q.subject.worktreeId) && IsId(q.subject.repositoryId)
    ensures var own := OwnKey(r.reservations, q.subject.worktreeId, q.subject.repositoryId);
            var any := AnyKey(r.reservations, q.subject.worktreeId);
            && (own.Some? ==> own.value in r.reservations)
            && ((any.Some? ==> any == own)
                && (own.Some? ==> r.reservations[own.value].operationId == q.operationId
                                  && MayRetake(r.reservations[own.value], q, live))
                <==> forall j | j in r.reservations && r.reservations[j].subject.worktreeId == q.subject.worktreeId ::
                       MayTakeOver(r.reservations[j], q, live))
  {
    ClaimsHere(r.reservations, q.subject.worktreeId, q.subject.repositoryId);
    hide FindClaim, OwnKey, AnyKey;
  }

  lemma ContextsAllow(r: Registry, s: Subject)
    ensures (exists k :: k in ActiveOn(r, s.worktreeId)
                         && ActiveOn(r, s.worktreeId)[k].repositoryId != s.repositoryId)
            <==> !(forall k | ActiveAt(r, k, s.worktreeId) :: r.contexts[k].repositoryId == s.repositoryId)
  {
    assert forall k :: k in ActiveOn(r, s.worktreeId) <==> ActiveAt(r, k, s.worktreeId);
  }

  lemma SessionsAllow(r: Registry, workSession: string, path: string)
    ensures SessionsOf(r, workSession, path) == map[]
            <==> forall k | k in r.sessions :: !Covers(r.sessions[k], workSession, path)
  {
    assert forall k ::
        k in SessionsOf(r, workSession, path) <==> k in r.sessions && Covers(r.sessions[k], workSession, path);
  }

  // The chain of refusals as one condition.
  lemma ReserveCommits(r: Registry, q: ReserveRequest, live: set<int>)
    ensures ReserveTx(r, q, live) == Committed(WithReservation(r, q)) || ReserveTx(r, q, live).Thrown?
    ensures var s, op := q.subject, q.operationId;
            var t := FindClaim(r.tombstones, s.worktreeId, s.repositoryId);
            var own := OwnKey(r.reservations, s.worktreeId, s.repositoryId);
            var any := AnyKey(r.reservations, s.worktreeId);
            var active := ActiveOn(r, s.worktreeId);
            ReserveTx(r, q, live).Committed?
            <==> && ValidClaimIds(op, s)
                 && (t.Some? ==> t.value.subject.repositoryId == s.repositoryId && t.value.operationId == op)
                 && (any.Some? ==> any == own)
                 && (own.Some? ==> r.reservations[own.value].operationId == op
                                   && MayRetake(r.reservations[own.value], q, live))
                 && !(exists k :: k in active && active[k].repositoryId != s.repositoryId)
                 && ContextsExpected(active, q)
                 && (SessionsOf(r, s.workSessionId, s.worktreePath) == map[] || q.allowActiveSessions)
  {
    hide ValidClaimIds, FindClaim, AnyKey, ContextsExpected, ActiveOn, SessionsOf, WithReservation, MayRetake;
  }

  lemma ReserveProposes(r: Registry, q: ReserveRequest, live: set<int>)
    requires Inv(r)
    ensures ReserveTx(r, q, live) == Committed(WithReservation(r, q)) || ReserveTx(r, q, live).Thrown?
    ensures ReserveTx(r, q, live).Committed? <==> MayPropose(r, q, live)
  {
    var s := q.subject;
    ReserveCommits(r, q, live);
    ContextsAllow(r, s);
    ExpectedExactly(r, q);
    SessionsAllow(r, s.workSessionId, s.worktreePath);
    hide ReserveTx, Inv, FindClaim, AnyKey, ContextsExpected, AimsAtClosed, AimsAtActive, ActiveOn, ActiveAt,
         SessionsOf, Covers, WithReservation, MayTakeOver, MayRetake;
    if ValidClaimIds(q.operationId, s) {
      TombstonesAllow(r, s, q.operationId);
      ReservationsAllow(r, q, live);
      hide OwnKey;
    }
    hide OwnKey, IsId;
  }

  // Closing the covered sessions leaves those of a claim as they are exactly when none of them is covered twice.
  lemma SessionsApart(r: Registry, n: Registry, workSession: string, path: string, s: Subject)
    requires n.sessions == CloseSessions(r.sessions, workSession, path)
    ensures SessionsOf(r, s.workSessionId, s.worktreePath) == SessionsOf(n, s.workSessionId, s.worktreePath)
            <==> forall k | k in r.sessions && Covers(r.sessions[k], workSession, path) ::
                   !Covers(r.sessions[k], s.workSessionId, s.worktreePath)
  {
    var before, after := SessionsOf(r, s.workSessionId, s.worktreePath), SessionsOf(n, s.workSessionId, s.worktreePath);
    assert forall k :: k in before <==> k in r.sessions && Covers(r.sessions[k], s.workSessionId, s.worktreePath);
    assert forall k :: k in after <==> k in before && !Covers(r.sessions[k], workSession, path);
    assert forall k | k in after :: after[k] == before[k];
    if before == after {
      forall k | k in r.sessions && Covers(r.sessions[k], workSession, path)
        ensures !Covers(r.sessions[k], s.workSessionId, s.worktreePath)
      {
        assert k !in after;
      }
    }
  }

  ghost predicate SameSessions(r: Registry, n: Registry, s: Subject) {
    SessionsOf(r, s.workSessionId, s.worktreePath) == SessionsOf(n, s.workSessionId, s.worktreePath)
  }

  // The commit guards of a draft that keeps contexts, tombstones and the reservations of other operations.
  lemma GuardsMean(r: Registry, n: Registry, op: string)
    requires n.contexts == r.contexts && n.tombstones == r.tombstones
    requires forall j | j in r.reservations && r.reservations[j].operationId != op ::
               j in n.reservations && n.reservations[j] == r.reservations[j]
    ensures ReservationGuard(r, n, op) && TombstoneGuard(r, n, op)
            <==> && (forall j | j in r.reservations && r.reservations[j].operationId != op ::
                       SameSessions(r, n, r.reservations[j].subject))
                 && (forall j | j in r.tombstones && r.tombstones[j].operationId != op ::
                       SameSessions(r, n, r.tombstones[j].subject))
  {
    assert forall w :: ActiveOn(n, w) == ActiveOn(r, w);
    hide ActiveOn, SessionsOf;
  }

  lemma ReserveGuarded(r: Registry, q: ReserveRequest)
    requires Inv(r) && IsId(q.subject.repositoryId)
    requires forall j | j in r.reservations && r.reservations[j].subject.worktreeId == q.subject.worktreeId ::
               r.reservations[j].operationId == q.operationId
    ensures var n := WithReservation(r, q);
            ReservationGuard(r, n, q.operationId) && TombstoneGuard(r, n, q.operationId)
            <==> ClosesOwn(r, q)
  {
    var n, op := WithReservation(r, q), q.operationId;
    if ClaimKey(q.subject) in r.reservations {
      PlacedWorktree(r.reservations, q.subject);
    }
    assert n.contexts == r.contexts && n.tombstones == r.tombstones
           && n.sessions == CloseSessions(r.sessions, q.subject.workSessionId, q.subject.worktreePath)
           && forall j | j in r.reservations && r.reservations[j].operationId != op ::
                j in n.reservations && n.reservations[j] == r.reservations[j];
    hide *;
    GuardsMean(r, n, op);
    UnsharedMeans(r, n, q);
  }

  lemma UnsharedMeans(r: Registry, n: Registry, q: ReserveRequest)
    requires n.sessions == CloseSessions(r.sessions, q.subject.workSessionId, q.subject.worktreePath)
    ensures (&& (forall j | j in r.reservations && r.reservations[j].operationId != q.operationId ::
                   SameSessions(r, n, r.reservations[j].subject))
             && (forall j | j in r.tombstones && r.tombstones[j].operationId != q.operationId ::
                   SameSessions(r, n, r.tombstones[j].subject)))
            <==> ClosesOwn(r, q)
  {
    hide CloseSessions;
    forall s: Subject
      ensures SameSessions(r, n, s)
              <==> forall k | k in r.sessions
                              && Covers(r.sessions[k], q.subject.workSessionId, q.subject.worktreePath) ::
                     !Covers(r.sessions[k], s.workSessionId, s.worktreePath)
    {
      SessionsApart(r, n, q.subject.workSessionId, q.subject.worktreePath, s);
    }
    hide SameSessions, Covers;
  }

  lemma ReservedExactly(r: Registry, q: ReserveRequest, n: Registry)
    ensures Reserved(r, q, n) <==> n == WithReservation(r, q)
  {
    var m, key := WithReservation(r, q), ClaimKey(q.subject);
    StoredExactly(q.subject, m.reservations[key].subject);
    if Reserved(r, q, n) {
      StoredExactly(q.subject, n.reservations[key].subject);
      TextOnce(n.reservations[key].attemptToken, q.attemptToken, 160);
      TextOnce(n.reservations[key].detail.phase, q.phase, 48);
      hide StoredSubject, StoredSubjectIs, Cut, StoredText, PairKey;
      assert n.reservations[key] == m.reservations[key];
      assert n.reservations == m.reservations;
      assert n.sessions == m.sessions;
    }
    hide StoredSubject, StoredSubjectIs, PairKey;
  }

  /**
   A cleanup is reserved exactly when its ids are valid, the worktree's tombstone and reservation are its own to take
   over, no context of another repository is active there, its targets are exactly what is active (or were closed
   before), and every session to be closed is allowed to be and belongs to no other cleanup. Then exactly these
   sessions are closed and exactly this reservation is written.
   */
  lemma ReserveExactly(r: Registry, e: Event)
    requires Inv(r) && e.call.Reserve?
    ensures Transact(r, e).Committed? <==> MayReserve(r, e.call.request, e.live)
    ensures if MayReserve(r, e.call.request, e.live) then Reserved(r, e.call.request, Next(r, e)) else Next(r, e) == r
  {
    var q := e.call.request;
    ReserveProposes(r, q, e.live);
    if MayPropose(r, q, e.live) {
      ReserveGuarded(r, q);
      ReservedExactly(r, q, WithReservation(r, q));
    }
    hide Inv, ReserveTx, ReservationGuard, TombstoneGuard, ClosesOwn, MayPropose, Reserved, WithReservation;
  }
}
