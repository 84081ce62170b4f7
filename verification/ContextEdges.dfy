/** Where the registry stops short of what its callers may expect, and exactly when. */
module ContextEdges {
  import opened Common
  import opened ContextModel
  import opened ContextInvariants
  import opened ContextRuns

  // ---------- exactly when a mutation commits ----------

  function MutatedKey(c: Call): string
    requires c.Mutate?
  {
    ContextKey(c.id.repositoryId, c.id.worktreeId, c.id.workSessionId)
  }

  // What the updater returns for the context under the key, or for a new one.
  function Updated(r: Registry, c: Call): Context
    requires c.Mutate?
  {
    c.update.Apply(if MutatedKey(c) in r.contexts then r.contexts[MutatedKey(c)] else FreshContext(c.id))
  }

  ghost predicate MayMutate(r: Registry, c: Call) {
    && c.Mutate? && c.id.Valid()
    && Open(r.tombstones, c.id.worktreeId, c.cleanupOp) && Open(r.reservations, c.id.worktreeId, c.cleanupOp)
    && (c.expected.Some? ==> c.expected.value == RevisionAt(r, MutatedKey(c)))
    && SameIdentity(Updated(r, c), c.id)
  }

  // A step of the owner that touches only the contexts of its worktree passes the commit guards.
  lemma OwnerCommits(r: Registry, n: Registry, worktree: string, op: string)
    requires n.reservations == r.reservations && n.tombstones == r.tombstones && n.sessions == r.sessions
    requires Open(r.reservations, worktree, op) && Open(r.tombstones, worktree, op)
    requires forall w | w != worktree :: ActiveOn(n, w) == ActiveOn(r, w)
    ensures ReservationGuard(r, n, op) && TombstoneGuard(r, n, op)
  {
    assert forall s, p :: SessionsOf(n, s, p) == SessionsOf(r, s, p);
  }

  lemma WithContextElsewhere(r: Registry, key: string, c: Context, w: string)
    requires c.worktreeId != w && (key in r.contexts ==> r.contexts[key].worktreeId != w)
    ensures ActiveOn(WithContext(r, key, c), w) == ActiveOn(r, w)
  {
  }

  lemma KeyedHere(r: Registry, id: Identity)
    requires Inv(r) && id.Valid()
    ensures var key := ContextKey(id.repositoryId, id.worktreeId, id.workSessionId);
            key in r.contexts ==> var c := r.contexts[key];
              c.repositoryId == id.repositoryId && c.worktreeId == id.worktreeId && c.workSessionId == id.workSessionId
  {
    var key := ContextKey(id.repositoryId, id.worktreeId, id.workSessionId);
    if key in r.contexts {
      var c := r.contexts[key];
      ContextKeyInjective(id.repositoryId, id.worktreeId, id.workSessionId, c.repositoryId, c.worktreeId,
          c.workSessionId);
    }
  }

  // The transaction alone, before the commit guards.
  lemma ProposedExactly(r: Registry, id: Identity, update: Update, expected: Option<nat>, op: string)
    requires Inv(r)
    ensures var c := Mutate(id, update, expected, op);
            && (MutateTx(r, id, update, expected, op).Committed? <==> MayMutate(r, c))
            && (MayMutate(r, c) ==>
                  MutateTx(r, id, update, expected, op)
                  == Committed(WithContext(r, MutatedKey(c),
                      SealContext(Updated(r, c), id, RevisionAt(r, MutatedKey(c))))))
  {
    if id.Valid() {
      ClaimedExactly(r.tombstones, id.worktreeId, id.repositoryId, op);
      ClaimedExactly(r.reservations, id.worktreeId, id.repositoryId, op);
    }
    hide Inv, Open, ClaimedByOther, ContextKey, SealContext;
  }

  lemma ClaimedExactly<D>(claims: map<string, Claim<D>>, worktree: string, repository: string, op: string)
    requires ClaimsPlaced(claims) && IsId(worktree) && IsId(repository)
    ensures ClaimedByOther(claims, worktree, repository, op) <==> !Open(claims, worktree, op)
  {
    FindExact(claims, worktree, repository);
    hide FindClaim, AnyKey, OwnKey, PairKey;
    var any := AnyKey(claims, worktree);
    if any.Some? {
      OneClaim(claims, any.value);
    }
  }

  lemma OneClaim<D>(claims: map<string, Claim<D>>, k: string)
    requires ClaimsPlaced(claims) && k in claims
    ensures forall j | j in claims && claims[j].subject.worktreeId == claims[k].subject.worktreeId :: j == k
  {
  }

  /** A mutation commits exactly under its own guards: the commit guards never refuse what these let through. */
  lemma MutateExactly(r: Registry, e: Event)
    requires Inv(r) && e.call.Mutate?
    ensures Transact(r, e).Committed? <==> MayMutate(r, e.call)
    ensures var key := MutatedKey(e.call);
            Next(r, e) == if MayMutate(r, e.call)
                          then WithContext(r, key, SealContext(Updated(r, e.call), e.call.id, RevisionAt(r, key)))
                              else r
  {
    var c := e.call;
    ProposedExactly(r, c.id, c.update, c.expected, c.cleanupOp);
    if MayMutate(r, c) {
      var key := MutatedKey(c);
      var n := WithContext(r, key, SealContext(Updated(r, c), c.id, RevisionAt(r, key)));
      KeyedHere(r, c.id);
      hide Inv, MutateTx, ReservationGuard, TombstoneGuard, ActiveOn, Open, ContextKey;
      forall w | w != c.id.worktreeId ensures ActiveOn(n, w) == ActiveOn(r, w) {
        WithContextElsewhere(r, key, n.contexts[key], w);
      }
      OwnerCommits(r, n, c.id.worktreeId, c.cleanupOp);
    }
    hide *;
  }

  // ---------- the project of a context ----------

  // The call gives the context under k another project.
  ghost predicate Moves(r: Registry, c: Call, k: string)
    requires k in r.contexts
  {
    MayMutate(r, c) && MutatedKey(c) == k && c.id.projectId != r.contexts[k].projectId
  }

  /** A step changes the project of a context exactly when a permitted call comes under an identity of another one. */
  lemma ProjectStep(r: Registry, e: Event, k: string)
    requires Inv(r) && k in r.contexts
    ensures k in Next(r, e).contexts
    ensures Next(r, e).contexts[k].projectId != r.contexts[k].projectId <==> Moves(r, e.call, k)
    ensures Moves(r, e.call, k) ==> e.call.update.Custom?
  {
    StepDoes(r, e);
    if e.call.Mutate? {
      MutateExactly(r, e);
      hide Inv, Next, Effect, Open;
    } else {
      OtherCalls(r, e, Next(r, e));
      hide *;
    }
  }

  lemma OtherCalls(r: Registry, e: Event, n: Registry)
    requires Effect(r, e, n) && !e.call.Mutate?
    ensures n.contexts == r.contexts
  {
    hide ReservationGuard, TombstoneGuard, Unopposed, Open, PairKey, Released;
  }

  /** In a run of the exported updaters a context never changes its project. */
  lemma {:induction false} ProjectFixed(r: Registry, events: seq<Event>, k: string)
    requires Inv(r) && k in r.contexts
    requires forall i | 0 <= i < |events| :: events[i].call.Mutate? ==> !events[i].call.update.Custom?
    ensures k in After(r, events).contexts
    ensures After(r, events).contexts[k].projectId == r.contexts[k].projectId
  {
    if events != [] {
      var n := |events| - 1;
      ProjectFixed(r, events[..n], k);
      RunStep(r, events, n);
      assert events[..n + 1] == events;
      hide Effect, Inv, Next, Moves;
      ProjectStep(Before(r, events, n), events[n], k);
    }
  }

  /** The key does not hold the project: an updater that returns another one moves the context to it. */
  lemma ProjectCanMove(r: Registry, id: Identity, op: string, live: set<int>)
    requires Inv(r) && id.Valid()
    requires Open(r.tombstones, id.worktreeId, op) && Open(r.reservations, id.worktreeId, op)
    requires ContextKey(id.repositoryId, id.worktreeId, id.workSessionId) in r.contexts
    ensures var key := ContextKey(id.repositoryId, id.worktreeId, id.workSessionId);
            var moved := Custom(r.contexts[key].(projectId := id.projectId));
            var o := Transact(r, Event(Mutate(id, moved, None, op), live));
            o.Committed? && o.next.contexts[key].projectId == id.projectId
  {
    var key := ContextKey(id.repositoryId, id.worktreeId, id.workSessionId);
    var e := Event(Mutate(id, Custom(r.contexts[key].(projectId := id.projectId)), None, op), live);
    KeyedHere(r, id);
    hide Inv, Open, ContextKey, Transact;
    MutateExactly(r, e);
  }

  lemma PhaseCommits(r: Registry, op: string, key: string, phase: string)
    requires key in r.reservations && r.reservations[key].operationId == op
    ensures ReservationGuard(r, WithPhase(r, key, phase), op) && TombstoneGuard(r, WithPhase(r, key, phase), op)
  {
    hide SameTerminalIdentity;
    var n := WithPhase(r, key, phase);
    assert forall w :: ActiveOn(n, w) == ActiveOn(r, w);
    assert forall s, p :: SessionsOf(n, s, p) == SessionsOf(r, s, p);
  }

  /** An update of the phase needs the operation and either the stored token or none at all. */
  lemma PhaseExactly(r: Registry, op: string, repository: string, worktree: string, token: string,
                     phase: string, live: set<int>)
    requires Inv(r) && IsId(op) && IsId(repository) && IsId(worktree)
    ensures var key := PairKey(repository, worktree);
            Transact(r, Event(Phase(op, repository, worktree, token, phase), live)).Committed?
            <==> && key in r.reservations && r.reservations[key].operationId == op
                 && (token == "" || token == r.reservations[key].attemptToken)
  {
    hide ReservationGuard, TombstoneGuard, Inv, WithPhase;
    var key := PairKey(repository, worktree);
    if key in r.reservations && r.reservations[key].operationId == op {
      PhaseCommits(r, op, key, phase);
    }
  }

  /** A holder can go on under the token it reserved with exactly when storing did not cut that token. */
  lemma OwnTokenExactly(r: Registry, q: ReserveRequest, n: Registry, phase: string, live: set<int>)
    requires Inv(n) && ReserveEffect(r, q, live, n) && q.attemptToken != ""
    ensures Transact(n, Event(Phase(q.operationId, q.subject.repositoryId, q.subject.worktreeId,
                                    q.attemptToken, phase), live)).Committed?
            <==> |q.attemptToken| <= 160
  {
    PhaseExactly(n, q.operationId, q.subject.repositoryId, q.subject.worktreeId, q.attemptToken, phase, live);
    hide Transact, Inv, Unopposed, PairKey;
  }

  // ---------- exactly when a tombstoned worktree is revived ----------

  // A permitted mutation by the tombstoning operation leaves a context of the worktree active.
  ghost predicate Revives(r: Registry, c: Call, t: Tombstone) {
    OwnMutation(c, t) && MayMutate(r, c) && Updated(r, c).state == Active
  }

  /** One step ends the standing of a tombstone exactly when it revives the worktree. */
  lemma StandingExactly(r: Registry, e: Event, k: string, t: Tombstone)
    requires Inv(r) && Standing(r, k, t)
    ensures Standing(Next(r, e), k, t) <==> !Revives(r, e.call, t)
  {
    if OwnMutation(e.call, t) {
      MutateExactly(r, e);
      hide Inv, Next, Standing;
      if MayMutate(r, e.call) {
        OwnMutationStands(r, e.call, k, t);
      }
    } else {
      StepDoes(r, e);
      hide Inv, Effect, Next, Standing;
      StandingStep(r, e, Next(r, e), k, t);
    }
  }

  lemma OwnMutationStands(r: Registry, c: Call, k: string, t: Tombstone)
    requires Standing(r, k, t) && OwnMutation(c, t) && MayMutate(r, c)
    ensures Standing(WithContext(r, MutatedKey(c), SealContext(Updated(r, c), c.id, RevisionAt(r, MutatedKey(c)))), k,
            t)
            <==> Updated(r, c).state != Active
  {
    hide Open, ContextKey;
    var key, w := MutatedKey(c), t.subject.worktreeId;
    var n := WithContext(r, key, SealContext(Updated(r, c), c.id, RevisionAt(r, key)));
    assert forall j :: j in ActiveOn(n, w) <==> if j == key then Updated(r, c).state == Active else j in ActiveOn(r, w);
    if Updated(r, c).state == Active {
      assert key in ActiveOn(n, w);
    } else {
      assert ActiveOn(n, w) == map[];
    }
  }

  /** A tombstone stands at every point of a run exactly when no call of the run revives the worktree. */
  lemma {:induction false} PermanenceExactly(r: Registry, events: seq<Event>, k: string, t: Tombstone)
    requires Inv(r) && Standing(r, k, t)
    ensures (forall i | 0 <= i <= |events| :: Standing(Before(r, events, i), k, t))
            <==> (forall i | 0 <= i < |events| :: !Revives(Before(r, events, i), events[i].call, t))
  {
    hide *;
    BeforeNone(r, events);
    var i := 0;
    while i < |events|
      invariant i <= |events| && forall j | 0 <= j <= i :: Standing(Before(r, events, j), k, t)
      invariant forall j | 0 <= j < i :: !Revives(Before(r, events, j), events[j].call, t)
    {
      StandingNext(r, events, i, k, t);
      if Revives(Before(r, events, i), events[i].call, t) {
        return;
      }
      i := i + 1;
    }
  }

  lemma BeforeNone(r: Registry, events: seq<Event>)
    ensures Before(r, events, 0) == r
  {
    assert events[..0] == [];
  }

  lemma StandingNext(r: Registry, events: seq<Event>, i: nat, k: string, t: Tombstone)
    requires Inv(r) && i < |events| && Standing(Before(r, events, i), k, t)
    ensures Standing(Before(r, events, i + 1), k, t) <==> !Revives(Before(r, events, i), events[i].call, t)
  {
    hide Standing, Revives, Inv, Next, Effect;
    RunStep(r, events, i);
    assert events[..i + 1][..i] == events[..i];
    StandingExactly(Before(r, events, i), events[i], k, t);
  }

  /** The tombstoning operation itself can revive its worktree, by any context of the identity's own project. */
  lemma OwnerRevives(r: Registry, k: string, id: Identity, update: Update, live: set<int>)
    requires Inv(r) && k in r.tombstones && Standing(r, k, r.tombstones[k])
    requires id.Valid() && id.worktreeId == r.tombstones[k].subject.worktreeId && !update.Custom?
    requires var key := ContextKey(id.repositoryId, id.worktreeId, id.workSessionId);
             key in r.contexts ==> r.contexts[key].projectId == id.projectId
    ensures var e := Event(Mutate(id, update, None, r.tombstones[k].operationId), live);
            Revives(r, e.call, r.tombstones[k]) && ActiveOn(Next(r, e), id.worktreeId) != map[]
  {
    var e := Event(Mutate(id, update, None, r.tombstones[k].operationId), live);
    OwnerMay(r, k, id, update);
    MutateExactly(r, e);
    hide Inv, Next, Standing, Open, ContextKey, Updated, MayMutate;
    ActiveAfter(r, e.call);
  }

  lemma ActiveAfter(r: Registry, c: Call)
    requires c.Mutate? && Updated(r, c).state == Active && Updated(r, c).worktreeId == c.id.worktreeId
    ensures var n := WithContext(r, MutatedKey(c), SealContext(Updated(r, c), c.id, RevisionAt(r, MutatedKey(c))));
            ActiveOn(n, c.id.worktreeId) != map[]
  {
    hide Updated, ContextKey;
    var n := WithContext(r, MutatedKey(c), SealContext(Updated(r, c), c.id, RevisionAt(r, MutatedKey(c))));
    assert MutatedKey(c) in ActiveOn(n, c.id.worktreeId);
  }

  lemma OwnerMay(r: Registry, k: string, id: Identity, update: Update)
    requires Inv(r) && k in r.tombstones && Standing(r, k, r.tombstones[k])
    requires id.Valid() && id.worktreeId == r.tombstones[k].subject.worktreeId && !update.Custom?
    requires var key := ContextKey(id.repositoryId, id.worktreeId, id.workSessionId);
             key in r.contexts ==> r.contexts[key].projectId == id.projectId
    ensures var c := Mutate(id, update, None, r.tombstones[k].operationId);
            Revives(r, c, r.tombstones[k]) && SameIdentity(Updated(r, c), id)
  {
    KeyedHere(r, id);
    OwnTombstone(r, k);
    hide Inv, ContextKey;
  }

  lemma OwnTombstone(r: Registry, k: string)
    requires Inv(r) && k in r.tombstones
    ensures Open(r.tombstones, r.tombstones[k].subject.worktreeId, r.tombstones[k].operationId)
  {
    OneClaim(r.tombstones, k);
  }
}
