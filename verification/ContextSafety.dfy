/** Fencing, freezing and permanence over whole runs of the context registry. */
module ContextSafety {
  import opened Common
  import opened ContextModel
  import opened ContextInvariants

  // ---------- who may change a reservation or a tombstone ----------

  ghost predicate Unchanged<D(!new)>(before: map<string, Claim<D>>, after: map<string, Claim<D>>, k: string)
    requires k in before
  {
    k in after && after[k] == before[k]
  }

  // The calls the source lets act on a reservation.
  predicate Authorised(held: Reservation, e: Event) {
    && e.call.Op() == held.operationId
    && match e.call
       case Phase(_, _, _, token, _) => token == "" || token == held.attemptToken
       case Release(_, _, _, token) => held.attemptToken == "" || token == held.attemptToken
       case Reserve(q) => MayRetake(held, q, e.live)
       case _ => false
  }

  /** One step changes a reservation only on an authorised call of the reserving operation. */
  lemma ReservationStep(r: Registry, e: Event, n: Registry, k: string)
    requires Inv(r) && Effect(r, e, n) && k in r.reservations
    ensures Unchanged(r.reservations, n.reservations, k) || Authorised(r.reservations[k], e)
  {
    hide Inv, ReservationGuard, TombstoneGuard, MutateEffect, MarkEffect, Unopposed, PairKey;
    if n != r {
      match e.call
      case Mutate(id, update, expected, op) => UntouchedByMutate(r, id, update, expected, op, n);
      case Reserve(q) => assert k == ClaimKey(q.subject) || n.reservations[k] == r.reservations[k];
      case Phase(_, _, _, _, _) =>
      case Release(_, _, _, _) =>
      case Mark(q) => UntouchedByMark(r, q, n);
    }
  }

  lemma UntouchedByMutate(r: Registry, id: Identity, update: Update, expected: Option<nat>, op: string, n: Registry)
    requires MutateEffect(r, id, update, expected, op, n)
    ensures n.reservations == r.reservations && n.tombstones == r.tombstones && n.sessions == r.sessions
  {
  }

  lemma UntouchedByMark(r: Registry, q: MarkRequest, n: Registry)
    requires MarkEffect(r, q, n)
    ensures n.contexts == r.contexts && n.reservations == r.reservations && n.sessions == r.sessions
  {
  }

  lemma OnlyMarkTouchesTombstones(r: Registry, e: Event, n: Registry)
    requires Effect(r, e, n) && !e.call.Mark?
    ensures n.tombstones == r.tombstones
  {
    hide ReservationGuard, TombstoneGuard, Released, Unopposed, Open;
  }

  lemma MarkTouchesItsWorktree(r: Registry, q: MarkRequest, n: Registry, worktree: string)
    requires Inv(r) && MarkEffect(r, q, n)
    ensures TombstonesOn(n, worktree) == TombstonesOn(r, worktree) || q.subject.worktreeId == worktree
  {
    var k := ClaimKey(q.subject);
    if k in r.tombstones {
      PlacedWorktree(r.tombstones, q.subject);
    }
    hide Inv, Unopposed, PairKey;
    assert n.tombstones == r.tombstones[k := n.tombstones[k]];
    assert n.tombstones[k].subject.worktreeId == q.subject.worktreeId;
  }

  ghost function TombstonesOn(r: Registry, worktree: string): map<string, Tombstone> {
    map k | k in r.tombstones && r.tombstones[k].subject.worktreeId == worktree :: r.tombstones[k]
  }

  /** Tombstones of a worktree change only by a mark that may release its reservation, on an idle worktree. */
  lemma TombstoneStep(r: Registry, e: Event, n: Registry, worktree: string)
    requires Inv(r) && Effect(r, e, n) && TombstonesOn(n, worktree) != TombstonesOn(r, worktree)
    ensures e.call.Mark? && e.call.mark.subject.worktreeId == worktree
    ensures forall j | j in r.reservations && r.reservations[j].subject.worktreeId == worktree ::
              Releasable(r.reservations[j], e.call.mark.operationId, e.call.mark.attemptToken)
    ensures ActiveOn(n, worktree) == map[]
  {
    hide ReservationGuard, TombstoneGuard, Released, Inv, Unopposed, PhaseEffect;
    if !e.call.Mark? {
      OnlyMarkTouchesTombstones(r, e, n);
    } else {
      MarkTouchesItsWorktree(r, e.call.mark, n, worktree);
    }
  }

  // ---------- fencing ----------

  ghost predicate Holds(r: Registry, k: string, token: string) {
    token != "" && k in r.reservations && r.reservations[k].attemptToken == token
  }

  // A call of an attempt other than `token`. An update of the phase with no token is not one.
  predicate OtherAttempt(c: Call, token: string) {
    match c
    case Phase(_, _, _, t, _) => t != "" && t != token
    case Release(_, _, _, t) => t != token
    case Mark(q) => q.attemptToken != token
    case Reserve(q) => |q.attemptToken| <= 160 && q.attemptToken != token
    case Mutate(_, _, _, _) => false
  }

  // The reservation under k and the tombstones of its worktree are the same.
  ghost predicate SameCleanup(here: Registry, there: Registry, k: string) {
    && k in here.reservations && k in there.reservations
    && there.reservations[k] == here.reservations[k]
    && var w := here.reservations[k].subject.worktreeId; TombstonesOn(there, w) == TombstonesOn(here, w)
  }

  lemma FencingStep(r: Registry, e: Event, n: Registry, k: string, token: string)
    requires Inv(r) && Effect(r, e, n) && Holds(r, k, token) && Holds(n, k, token)
    requires OtherAttempt(e.call, token)
    ensures SameCleanup(r, n, k)
  {
    hide ReservationGuard, TombstoneGuard;
    ReservationStep(r, e, n, k);
    var w := r.reservations[k].subject.worktreeId;
    if TombstonesOn(n, w) != TombstonesOn(r, w) {
      TombstoneStep(r, e, n, w);
    }
  }

  /** While one attempt holds the reservation, a call of another attempt changes neither it nor the tombstone. */
  lemma Fencing(r: Registry, events: seq<Event>, k: string, token: string, i: nat)
    requires Inv(r) && i < |events|
    requires forall j | 0 <= j <= |events| :: Holds(Before(r, events, j), k, token)
    requires OtherAttempt(events[i].call, token)
    ensures SameCleanup(Before(r, events, i), Before(r, events, i + 1), k)
  {
    hide After, Effect, Inv, SameCleanup, OtherAttempt;
    RunStep(r, events, i);
    FencingStep(Before(r, events, i), events[i], Before(r, events, i + 1), k, token);
  }

  // The ways a held reservation may pass on: its holder lets go, or its attempt is finished or dead.
  predicate Handed(held: Reservation, e: Event, token: string) {
    && e.call.Op() == held.operationId
    && (|| (e.call.Release? && e.call.token == token)
        || (&& e.call.Reserve?
            && (TerminalPhase(held.detail.phase)
                || held.detail.ownerPid <= 0 || held.detail.ownerPid !in e.live)))
  }

  lemma HandoverStep(r: Registry, e: Event, n: Registry, k: string, token: string)
    requires Inv(r) && Effect(r, e, n) && Holds(r, k, token) && !Holds(n, k, token)
    ensures Handed(r.reservations[k], e, token)
  {
    hide ReservationGuard, TombstoneGuard, Inv;
    assert Inv(r) ==> |token| <= 160 by { InvTokens(r, k); }
    ReservationStep(r, e, n, k);
    if e.call.Reserve? {
      assert k == ClaimKey(e.call.request.subject);
    }
  }

  lemma InvTokens(r: Registry, k: string)
    requires Inv(r) && k in r.reservations
    ensures |r.reservations[k].attemptToken| <= 160
  {
  }

  /** A held reservation passes on only by its holder's release, or from an attempt that is finished or dead. */
  lemma {:induction false} Handover(r: Registry, events: seq<Event>, k: string, token: string) returns (i: nat)
    requires Inv(r) && Holds(r, k, token) && !Holds(After(r, events), k, token)
    ensures i < |events| && Holds(Before(r, events, i), k, token)
    ensures Handed(Before(r, events, i).reservations[k], events[i], token)
  {
    hide Effect, Inv, Handed, Next;
    assert events[..|events|] == events;
    var n := |events| - 1;
    if Holds(Before(r, events, n), k, token) {
      i := n;
      RunStep(r, events, n);
      HandoverStep(Before(r, events, n), events[n], Before(r, events, n + 1), k, token);
    } else {
      i := Handover(r, events[..n], k, token);
      assert events[..n][..i] == events[..i];
    }
  }
}
