/** What every transaction of the registry keeps, and so what holds in every run. */
module ContextInvariants {
  import opened Common
  import opened ContextModel

  // ---------- the invariant ----------

  ghost predicate ContextsPlaced(contexts: map<string, Context>) {
    forall k | k in contexts ::
      var c := contexts[k];
      k == KeyOf(c) && c.revision >= 1
      && IsId(c.repositoryId) && IsId(c.worktreeId) && IsId(c.workSessionId) && IsId(c.projectId)
  }

  // Every claim sits under its own composite key; at most one per worktree, whatever the repository.
  ghost predicate ClaimsPlaced<D>(claims: map<string, Claim<D>>) {
    && (forall k | k in claims ::
          k == ClaimKey(claims[k].subject)
          && IsId(claims[k].subject.repositoryId) && IsId(claims[k].subject.worktreeId)
          && |claims[k].attemptToken| <= 160)
    && (forall k, k' | k in claims && k' in claims
                       && claims[k].subject.worktreeId == claims[k'].subject.worktreeId :: k == k')
  }

  // A reservation of a tombstoned worktree belongs to the operation that tombstoned it.
  ghost predicate TombstonesOwn(tombstones: map<string, Tombstone>, reservations: map<string, Reservation>) {
    forall k, k' | k in tombstones && k' in reservations
                   && tombstones[k].subject.worktreeId == reservations[k'].subject.worktreeId ::
      k == k' && tombstones[k].operationId == reservations[k'].operationId
  }

  ghost function RevisionSum(contexts: map<string, Context>): nat {
    if contexts == map[] then 0
    else var k :| k in contexts; contexts[k].revision + RevisionSum(contexts - {k})
  }

  ghost predicate Inv(r: Registry) {
    && ContextsPlaced(r.contexts)
    && ClaimsPlaced(r.reservations)
    && ClaimsPlaced(r.tombstones)
    && TombstonesOwn(r.tombstones, r.reservations)
    && r.revision == RevisionSum(r.contexts)
  }

  // ---------- lookups under the invariant ----------

  /** Contexts with valid ids share a key only if they share all three ids. */
  lemma ContextKeyInjective(repository: string, worktree: string, session: string,
                            repository': string, worktree': string, session': string)
    requires IsId(repository) && IsId(worktree) && IsId(repository') && IsId(worktree')
    requires ContextKey(repository, worktree, session) == ContextKey(repository', worktree', session')
    ensures repository == repository' && worktree == worktree' && session == session'
  {
    PairKeyInjective(repository, PairKey(worktree, session), repository', PairKey(worktree', session'));
    PairKeyInjective(worktree, session, worktree', session');
  }

  lemma NoBareKey<D>(claims: map<string, Claim<D>>, worktree: string)
    requires ClaimsPlaced(claims) && IsId(worktree)
    ensures worktree !in claims
  {
    IdHasNoColon(worktree);
    assert worktree in claims ==> ':' in ClaimKey(claims[worktree].subject);
  }

  /** The chained lookups find exactly the one claim of the worktree, in whatever repository. */
  lemma FindExact<D>(claims: map<string, Claim<D>>, worktree: string, repository: string)
    requires ClaimsPlaced(claims) && IsId(worktree) && IsId(repository)
    ensures var any := AnyKey(claims, worktree);
            && (any.None? <==> forall j | j in claims :: claims[j].subject.worktreeId != worktree)
            && (any.Some? ==> any.value in claims && claims[any.value].subject.worktreeId == worktree)
            && FindClaim(claims, worktree, repository) == (if any.Some? then Some(claims[any.value]) else None)
    ensures var own := OwnKey(claims, worktree, repository);
            && (own.Some? ==> own == AnyKey(claims, worktree))
            && (own.Some? <==> PairKey(repository, worktree) in claims)
  {
    NoBareKey(claims, worktree);
    var key := PairKey(repository, worktree);
    if key in claims {
      IdHasNoColon(repository);
      PairKeyInjective(repository, worktree,
                       claims[key].subject.repositoryId, claims[key].subject.worktreeId);
    }
  }

  lemma PlacedWorktree<D>(claims: map<string, Claim<D>>, s: Subject)
    requires ClaimsPlaced(claims) && IsId(s.repositoryId) && ClaimKey(s) in claims
    ensures claims[ClaimKey(s)].subject.worktreeId == s.worktreeId
    ensures claims[ClaimKey(s)].subject.repositoryId == s.repositoryId
  {
    var c := claims[ClaimKey(s)].subject;
    PairKeyInjective(s.repositoryId, s.worktreeId, c.repositoryId, c.worktreeId);
  }

  /** Writing a claim keeps the placement if it replaces the worktree's only claim. */
  lemma ClaimWritten<D>(claims: map<string, Claim<D>>, c: Claim<D>)
    requires ClaimsPlaced(claims)
    requires IsId(c.subject.repositoryId) && IsId(c.subject.worktreeId) && |c.attemptToken| <= 160
    requires forall j | j in claims && claims[j].subject.worktreeId == c.subject.worktreeId ::
               j == ClaimKey(c.subject)
    ensures ClaimsPlaced(claims[ClaimKey(c.subject) := c])
  {
  }

  // ---------- sums ----------

  lemma {:induction false} SumWithout(m: map<string, Context>, k: string)
    requires k in m
    ensures RevisionSum(m) == m[k].revision + RevisionSum(m - {k})
    decreases |m|
  {
    var j :| j in m && RevisionSum(m) == m[j].revision + RevisionSum(m - {j});
    if j != k {
      SumWithout(m - {j}, k);
      SumWithout(m - {k}, j);
      assert m - {j} - {k} == m - {k} - {j};
    }
  }

  lemma SumUpdate(m: map<string, Context>, k: string, c: Context)
    ensures RevisionSum(m[k := c])
            == RevisionSum(m) - (if k in m then m[k].revision else 0) + c.revision
  {
    SumWithout(m[k := c], k);
    if k in m {
      SumWithout(m, k);
      assert m[k := c] - {k} == m - {k};
    } else {
      assert m[k := c] - {k} == m;
    }
  }

  // ---------- what one step does ----------

  // No claim of the subject's worktree belongs to another operation or sits under another key.
  ghost predicate Unopposed<D>(claims: map<string, Claim<D>>, s: Subject, op: string) {
    forall j | j in claims && claims[j].subject.worktreeId == s.worktreeId ::
      j == ClaimKey(s) && claims[j].operationId == op
  }

  // No claim of the worktree belongs to another operation.
  ghost predicate Open<D>(claims: map<string, Claim<D>>, worktree: string, op: string) {
    forall j | j in claims && claims[j].subject.worktreeId == worktree :: claims[j].operationId == op
  }

  ghost predicate MutateEffect(r: Registry, id: Identity, update: Update, expected: Option<nat>, op: string,
      n: Registry) {
    var key := ContextKey(id.repositoryId, id.worktreeId, id.workSessionId);
    var known := key in r.contexts;
    var base := if known then r.contexts[key] else FreshContext(id);
    && id.Valid()
    && Open(r.tombstones, id.worktreeId, op) && Open(r.reservations, id.worktreeId, op)
    && (expected.Some? ==> expected.value == if known then r.contexts[key].revision else 0)
    && SameIdentity(update.Apply(base), id)
    && n == WithContext(r, key, SealContext(update.Apply(base), id, if known then r.contexts[key].revision else 0))
  }

  ghost predicate ReserveEffect(r: Registry, q: ReserveRequest, live: set<int>, n: Registry) {
    var s := q.subject;
    && ValidClaimIds(q.operationId, s)
    && Unopposed(r.reservations, s, q.operationId) && Unopposed(r.tombstones, s, q.operationId)
    && (ClaimKey(s) in r.reservations ==>
          r.reservations[ClaimKey(s)].operationId == q.operationId
          && MayRetake(r.reservations[ClaimKey(s)], q, live))
    && ContextsExpected(ActiveOn(r, s.worktreeId), q)
    && n == WithReservation(r, q)
  }

  ghost predicate PhaseEffect(r: Registry, op: string, key: string, token: string, phase: string, n: Registry) {
    && key in r.reservations && r.reservations[key].operationId == op
    && (token == "" || r.reservations[key].attemptToken == token)
    && n == WithPhase(r, key, phase)
  }

  ghost predicate MarkEffect(r: Registry, q: MarkRequest, n: Registry) {
    var s := q.subject;
    && ValidClaimIds(q.operationId, s)
    && Unopposed(r.tombstones, s, q.operationId) && Unopposed(r.reservations, s, q.operationId)
    && (forall j | j in r.reservations && r.reservations[j].subject.worktreeId == s.worktreeId ::
          r.reservations[j].subject == s && Releasable(r.reservations[j], q.operationId, q.attemptToken))
    && ActiveOn(r, s.worktreeId) == map[]
    && n == WithTombstone(r, q)
  }

  // A step either leaves the registry as it is or does this, within the commit guards.
  ghost predicate Effect(r: Registry, e: Event, n: Registry) {
    || n == r
    || (&& ReservationGuard(r, n, e.call.Op()) && TombstoneGuard(r, n, e.call.Op())
        && match e.call
           case Mutate(id, update, expected, op) => MutateEffect(r, id, update, expected, op, n)
           case Reserve(q) => ReserveEffect(r, q, e.live, n)
           case Phase(op, repository, worktree, token, phase) =>
             PhaseEffect(r, op, PairKey(repository, worktree), token, phase, n)
           case Release(op, repository, worktree, token) =>
             op != "" && n == r.(reservations := r.reservations - Released(r, op, repository, worktree, token))
           case Mark(q) => MarkEffect(r, q, n))
  }

  lemma MutateDoes(r: Registry, id: Identity, update: Update, expected: Option<nat>, op: string)
    requires Inv(r) && MutateTx(r, id, update, expected, op).Committed?
    ensures MutateEffect(r, id, update, expected, op, MutateTx(r, id, update, expected, op).next)
  {
    FindExact(r.reservations, id.worktreeId, id.repositoryId);
    FindExact(r.tombstones, id.worktreeId, id.repositoryId);
  }

  lemma ReserveDoes(r: Registry, q: ReserveRequest, live: set<int>)
    requires Inv(r) && ReserveTx(r, q, live).Committed?
    ensures ReserveEffect(r, q, live, ReserveTx(r, q, live).next)
  {
    FindExact(r.reservations, q.subject.worktreeId, q.subject.repositoryId);
    FindExact(r.tombstones, q.subject.worktreeId, q.subject.repositoryId);
  }

  lemma MarkDoes(r: Registry, q: MarkRequest)
    requires Inv(r) && MarkTx(r, q).Committed?
    ensures MarkEffect(r, q, MarkTx(r, q).next)
  {
    FindExact(r.reservations, q.subject.worktreeId, q.subject.repositoryId);
    FindExact(r.tombstones, q.subject.worktreeId, q.subject.repositoryId);
  }

  lemma StepDoes(r: Registry, e: Event)
    requires Inv(r)
    ensures Effect(r, e, Next(r, e))
  {
    hide ReservationGuard, TombstoneGuard, ReserveEffect, MarkEffect, MutateEffect;
    if Transact(r, e).Committed? {
      match e.call
      case Mutate(id, update, expected, op) => MutateDoes(r, id, update, expected, op);
      case Reserve(q) => ReserveDoes(r, q, e.live);
      case Phase(_, _, _, _, _) =>
      case Release(_, _, _, _) =>
      case Mark(q) => MarkDoes(r, q);
    }
  }

  // ---------- each step keeps the invariant ----------

  lemma MutateKeeps(r: Registry, id: Identity, update: Update, expected: Option<nat>, op: string, n: Registry)
    requires Inv(r) && MutateEffect(r, id, update, expected, op, n)
    ensures Inv(n)
  {
    var key := ContextKey(id.repositoryId, id.worktreeId, id.workSessionId);
    SumUpdate(r.contexts, key, n.contexts[key]);
  }

  lemma ReserveKeeps(r: Registry, q: ReserveRequest, live: set<int>, n: Registry)
    requires Inv(r) && ReserveEffect(r, q, live, n)
    ensures Inv(n)
  {
    ClaimWritten(r.reservations, NewReservation(q));
  }

  lemma PhaseKeeps(r: Registry, op: string, key: string, token: string, phase: string, n: Registry)
    requires Inv(r) && PhaseEffect(r, op, key, token, phase, n)
    ensures Inv(n)
  {
  }

  lemma ReleaseKeeps(r: Registry, released: set<string>, n: Registry)
    requires Inv(r) && n == r.(reservations := r.reservations - released)
    ensures Inv(n)
  {
  }

  lemma MarkKeeps(r: Registry, q: MarkRequest, n: Registry)
    requires Inv(r) && MarkEffect(r, q, n)
    ensures Inv(n)
  {
    ClaimWritten(r.tombstones, n.tombstones[ClaimKey(q.subject)]);
  }

  lemma StepKeeps(r: Registry, e: Event, n: Registry)
    requires Inv(r) && Effect(r, e, n)
    ensures Inv(n)
  {
    hide Inv, ReservationGuard, TombstoneGuard, MutateEffect, ReserveEffect, PhaseEffect, MarkEffect, Released;
    if n != r {
      match e.call
      case Mutate(id, update, expected, op) => MutateKeeps(r, id, update, expected, op, n);
      case Reserve(q) => ReserveKeeps(r, q, e.live, n);
      case Phase(op, repository, worktree, token, phase) =>
        PhaseKeeps(r, op, PairKey(repository, worktree), token, phase, n);
      case Release(op, repository, worktree, token) =>
        ReleaseKeeps(r, Released(r, op, repository, worktree, token), n);
      case Mark(q) => MarkKeeps(r, q, n);
    }
  }

  /** Every run from a good registry stays good. */
  lemma {:induction false} RunKeeps(r: Registry, events: seq<Event>)
    requires Inv(r)
    ensures Inv(After(r, events))
  {
    hide Next, Effect;
    if events != [] {
      var here := After(r, events[..|events| - 1]);
      RunKeeps(r, events[..|events| - 1]);
      StepDoes(here, events[|events| - 1]);
      StepKeeps(here, events[|events| - 1], Next(here, events[|events| - 1]));
    }
  }

  /**
   In every run of the five operations from an uninitialised registry: contexts sit under the key of their own
   identity, a worktree has at most one reservation and one tombstone, even across repositories, a reservation of a
   tombstoned worktree is its own, and the global revision is the sum of all context revisions.
   */
  lemma RunFromEmpty(events: seq<Event>)
    ensures Inv(After(EMPTY, events))
    ensures var r := After(EMPTY, events);
            && (forall k | k in r.contexts :: k == KeyOf(r.contexts[k]))
            && (forall j, k | j in r.reservations && k in r.reservations
                              && r.reservations[j].subject.worktreeId == r.reservations[k].subject.worktreeId :: j == k)
            && (forall j, k | j in r.tombstones && k in r.tombstones
                              && r.tombstones[j].subject.worktreeId == r.tombstones[k].subject.worktreeId :: j == k)
            && (forall j, k | j in r.tombstones && k in r.reservations
                              && r.tombstones[j].subject.worktreeId == r.reservations[k].subject.worktreeId ::
                  r.tombstones[j].operationId == r.reservations[k].operationId)
            && r.revision == RevisionSum(r.contexts)
  {
    hide Next, After;
    RunKeeps(EMPTY, events);
  }

  // The registry before event i of a run.
  ghost function Before(r: Registry, events: seq<Event>, i: nat): Registry
    requires i <= |events|
  {
    After(r, events[..i])
  }

  lemma RunStep(r: Registry, events: seq<Event>, i: nat)
    requires Inv(r) && i < |events|
    ensures Inv(Before(r, events, i)) && Inv(Before(r, events, i + 1))
    ensures Effect(Before(r, events, i), events[i], Before(r, events, i + 1))
  {
    hide Next, Effect;
    RunKeeps(r, events[..i]);
    RunKeeps(r, events[..i + 1]);
    assert events[..i + 1][..i] == events[..i];
    StepDoes(Before(r, events, i), events[i]);
  }
}
