/** Revisions, compare-and-set, freezing and tombstone permanence over runs of the registry. */
module ContextRuns {
  import opened Common
  import opened ContextModel
  import opened ContextInvariants
  import opened ContextSafety

  // ---------- revisions ----------

  // Event e, taken from r to n, is a committed mutation of the context under `key`.
  ghost predicate Mutates(r: Registry, e: Event, n: Registry, key: string) {
    && n != r && e.call.Mutate?
    && key == ContextKey(e.call.id.repositoryId, e.call.id.worktreeId, e.call.id.workSessionId)
  }

  ghost function RevisionAt(r: Registry, key: string): nat {
    if key in r.contexts then r.contexts[key].revision else 0
  }

  lemma RevisionStep(r: Registry, e: Event, n: Registry, key: string)
    requires Effect(r, e, n)
    ensures key in r.contexts ==> key in n.contexts
    ensures if Mutates(r, e, n, key)
            then RevisionAt(n, key) == RevisionAt(r, key) + 1 && n.revision == r.revision + 1
                 && (e.call.expected.Some? ==> e.call.expected.value == RevisionAt(r, key))
            else key in r.contexts ==> n.contexts[key] == r.contexts[key]
  {
    hide ReservationGuard, TombstoneGuard, Unopposed, Open, PairKey, Released;
  }

  /** Revisions never fall, and a mutation inside the run leaves the revision strictly higher. */
  lemma {:induction false} RevisionsRise(r: Registry, events: seq<Event>, key: string, i: nat, j: nat)
    requires Inv(r) && i <= j <= |events|
    ensures RevisionAt(Before(r, events, i), key) <= RevisionAt(Before(r, events, j), key)
    ensures key in Before(r, events, i).contexts ==> key in Before(r, events, j).contexts
    ensures forall m | i <= m < j && Mutates(Before(r, events, m), events[m], Before(r, events, m + 1), key) ::
              RevisionAt(Before(r, events, m), key) < RevisionAt(Before(r, events, j), key)
    decreases j - i
  {
    hide Effect, Inv, Before, Mutates;
    if i < j {
      RevisionsRise(r, events, key, i, j - 1);
      RunStep(r, events, j - 1);
      RevisionStep(Before(r, events, j - 1), events[j - 1], Before(r, events, j), key);
    }
  }

  /** Of several calls that expect one revision of a context, at most one commits in a run. */
  lemma OneWinner(r: Registry, events: seq<Event>, key: string, i: nat, j: nat)
    requires Inv(r) && i < j < |events|
    requires Mutates(Before(r, events, i), events[i], Before(r, events, i + 1), key)
    requires Mutates(Before(r, events, j), events[j], Before(r, events, j + 1), key)
    requires events[i].call.expected.Some?
    ensures events[j].call.expected != events[i].call.expected
  {
    RunStep(r, events, i);
    RunStep(r, events, j);
    hide Effect, Inv, Before;
    RevisionStep(Before(r, events, i), events[i], Before(r, events, i + 1), key);
    RevisionStep(Before(r, events, j), events[j], Before(r, events, j + 1), key);
    RevisionsRise(r, events, key, i, j);
  }

  // The entries are contexts of r as they stand.
  ghost predicate TakenFrom(snapshot: multiset<SnapshotEntry>, r: Registry) {
    forall entry | entry in snapshot :: entry.key in r.contexts && r.contexts[entry.key] == entry.context
  }

  /**
   If a reservation with a non-empty snapshot commits while contexts are active, no context of the snapshot
   was mutated since it was taken, even back to the same fields, and the snapshot is all that is active.
   */
  lemma NoAba(r: Registry, events: seq<Event>, i: nat)
    requires Inv(r) && i < |events| && events[i].call.Reserve?
    requires Before(r, events, i + 1) != Before(r, events, i)
    requires var q := events[i].call.request;
             && TakenFrom(q.subject.targetSnapshot, r) && |q.subject.targetSnapshot| > 0
             && ActiveOn(Before(r, events, i), q.subject.worktreeId) != map[]
    ensures var q := events[i].call.request;
            && q.subject.targetSnapshot
               == multiset(SnapshotOf(ActiveOn(Before(r, events, i), q.subject.worktreeId)))
            && forall entry, m | entry in q.subject.targetSnapshot && 0 <= m < i ::
                 !Mutates(Before(r, events, m), events[m], Before(r, events, m + 1), entry.key)
  {
    var q := events[i].call.request;
    var here := Before(r, events, i);
    var active := ActiveOn(here, q.subject.worktreeId);
    RunStep(r, events, i);
    assert ContextsExpected(active, q) by { hide Before, Inv; }
    assert q.subject.targetSnapshot == multiset(SnapshotOf(active));
    assert Before(r, events, 0) == r by { assert events[..0] == []; }
    forall entry, m | entry in q.subject.targetSnapshot && 0 <= m < i
      ensures !Mutates(Before(r, events, m), events[m], Before(r, events, m + 1), entry.key)
    {
      hide Effect, Inv, Before, Mutates, ContextsExpected;
      assert entry in SnapshotOf(active);
      assert RevisionAt(here, entry.key) == RevisionAt(r, entry.key);
      RevisionsRise(r, events, entry.key, 0, m);
      RevisionsRise(r, events, entry.key, 0, i);
    }
  }

  // ---------- freeze ----------

  ghost function ContextsOn(r: Registry, worktree: string): map<string, Context> {
    map k | k in r.contexts && r.contexts[k].worktreeId == worktree :: r.contexts[k]
  }

  // The reservation under k, the contexts of its worktree and the active sessions it covers are the same.
  ghost predicate Frozen(here: Registry, there: Registry, k: string) {
    && k in here.reservations && k in there.reservations && there.reservations[k] == here.reservations[k]
    && var s := here.reservations[k].subject;
    && ContextsOn(there, s.worktreeId) == ContextsOn(here, s.worktreeId)
    && SessionsOf(there, s.workSessionId, s.worktreePath) == SessionsOf(here, s.workSessionId, s.worktreePath)
  }

  lemma MutateStaysOnWorktree(r: Registry, id: Identity, update: Update, expected: Option<nat>, op: string,
                              n: Registry, worktree: string)
    requires Inv(r) && MutateEffect(r, id, update, expected, op, n)
    ensures id.worktreeId == worktree || ContextsOn(n, worktree) == ContextsOn(r, worktree)
  {
    var key := ContextKey(id.repositoryId, id.worktreeId, id.workSessionId);
    if key in r.contexts {
      var c := r.contexts[key];
      ContextKeyInjective(id.repositoryId, id.worktreeId, id.workSessionId,
                          c.repositoryId, c.worktreeId, c.workSessionId);
      assert c.worktreeId == id.worktreeId;
    }
    hide Inv, Open, PairKey;
  }

  lemma ContextsOnStep(r: Registry, e: Event, n: Registry, worktree: string)
    requires Inv(r) && Effect(r, e, n) && ContextsOn(n, worktree) != ContextsOn(r, worktree)
    ensures e.call.Mutate? && e.call.id.worktreeId == worktree
    ensures Open(r.tombstones, worktree, e.call.cleanupOp) && Open(r.reservations, worktree, e.call.cleanupOp)
  {
    hide ReservationGuard, TombstoneGuard, Inv, ContextsPlaced, Unopposed, Open, PairKey, Released;
    if e.call.Mutate? {
      MutateStaysOnWorktree(r, e.call.id, e.call.update, e.call.expected, e.call.cleanupOp, n, worktree);
    }
  }

  lemma FreezeStep(r: Registry, e: Event, n: Registry, k: string)
    requires Inv(r) && Effect(r, e, n) && k in r.reservations
    requires e.call.Op() != r.reservations[k].operationId
    ensures Frozen(r, n, k)
  {
    var s := r.reservations[k].subject;
    assert n != r ==> ReservationGuard(r, n, e.call.Op());
    if ContextsOn(n, s.worktreeId) != ContextsOn(r, s.worktreeId) {
      ContextsOnStep(r, e, n, s.worktreeId);
    }
    hide Effect, Inv;
  }

  lemma FrozenTransitive(a: Registry, b: Registry, c: Registry, k: string)
    requires Frozen(a, b, k) && Frozen(b, c, k)
    ensures Frozen(a, c, k)
  {
  }

  /** However many calls other operations make, a reserved worktree stays reserved and as it was. */
  lemma {:induction false} Freeze(r: Registry, events: seq<Event>, k: string)
    requires Inv(r) && k in r.reservations
    requires forall i | 0 <= i < |events| :: events[i].call.Op() != r.reservations[k].operationId
    ensures Frozen(r, After(r, events), k)
  {
    if events != [] {
      var n := |events| - 1;
      Freeze(r, events[..n], k);
      RunStep(r, events, n);
      assert events[..n + 1] == events;
      hide Effect, Inv, Next;
      FreezeStep(Before(r, events, n), events[n], After(r, events), k);
      FrozenTransitive(r, Before(r, events, n), After(r, events), k);
    }
  }

  lemma ActiveWithin(here: Registry, there: Registry, worktree: string)
    requires ContextsOn(there, worktree) == ContextsOn(here, worktree)
    ensures ActiveOn(there, worktree) == ActiveOn(here, worktree)
  {
    assert forall j :: j in ActiveOn(here, worktree) <==>
        j in ContextsOn(here, worktree) && ContextsOn(here, worktree)[j].state == Active;
    assert forall j :: j in ActiveOn(there, worktree) <==>
        j in ContextsOn(there, worktree) && ContextsOn(there, worktree)[j].state == Active;
  }

  // ---------- tombstones ----------

  // The tombstone under k stands for the same operation and subject, on a worktree with nothing active
  // and no reservation of another operation.
  ghost predicate Standing(r: Registry, k: string, t: Tombstone) {
    && k in r.tombstones
    && r.tombstones[k].operationId == t.operationId
    && r.tombstones[k].subject == t.subject && r.tombstones[k].detail == t.detail
    && ActiveOn(r, t.subject.worktreeId) == map[]
    && Open(r.reservations, t.subject.worktreeId, t.operationId)
  }

  // A mutation of the tombstoned worktree by the tombstoning operation itself.
  predicate OwnMutation(c: Call, t: Tombstone) {
    c.Mutate? && c.cleanupOp == t.operationId && c.id.worktreeId == t.subject.worktreeId
  }

  /** A tombstone is only ever written or rewritten on a worktree without an active context. */
  lemma TombstoneBirth(r: Registry, e: Event, n: Registry, k: string)
    requires Inv(r) && Effect(r, e, n) && k in n.tombstones
    requires k !in r.tombstones || n.tombstones[k] != r.tombstones[k]
    ensures Standing(n, k, n.tombstones[k])
  {
    StepKeeps(r, e, n);
    var w := n.tombstones[k].subject.worktreeId;
    assert k in TombstonesOn(n, w);
    assert k !in TombstonesOn(r, w) || TombstonesOn(r, w)[k] != TombstonesOn(n, w)[k];
    TombstoneStep(r, e, n, w);
    hide Effect;
  }

  lemma StandingStep(r: Registry, e: Event, n: Registry, k: string, t: Tombstone)
    requires Inv(r) && Effect(r, e, n) && Standing(r, k, t) && !OwnMutation(e.call, t)
    ensures Standing(n, k, t)
    ensures n.tombstones[k].attemptToken != r.tombstones[k].attemptToken ==>
              && ClaimKey(t.subject) in n.reservations
              && n.reservations[ClaimKey(t.subject)].attemptToken == n.tombstones[k].attemptToken
              && n.reservations[ClaimKey(t.subject)].operationId == t.operationId
  {
    StepKeeps(r, e, n);
    assert n != r ==> TombstoneGuard(r, n, e.call.Op());
    var w := t.subject.worktreeId;
    if ContextsOn(n, w) != ContextsOn(r, w) {
      ContextsOnStep(r, e, n, w);
      assert false;
    }
    hide Effect;
    ActiveWithin(r, n, w);
  }

  /** Permanence: nothing but a mutation of the tombstoning operation itself revives a tombstoned worktree. */
  lemma {:induction false} Permanence(r: Registry, events: seq<Event>, k: string, t: Tombstone)
    requires Inv(r) && Standing(r, k, t)
    requires forall i | 0 <= i < |events| :: !OwnMutation(events[i].call, t)
    ensures Standing(After(r, events), k, t)
  {
    if events != [] {
      var n := |events| - 1;
      Permanence(r, events[..n], k, t);
      RunStep(r, events, n);
      assert events[..n + 1] == events;
      hide Effect, Inv, Next, Standing;
      StandingStep(Before(r, events, n), events[n], After(r, events), k, t);
    }
  }
}
