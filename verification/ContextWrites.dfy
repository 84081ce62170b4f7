/** Exactly what a mutation, a phase update, a release and a terminal mark write, and when the last two do. */
module ContextWrites {
  import opened Common
  import opened ContextModel
  import opened ContextInvariants
  import opened ContextRuns
  import opened ContextEdges
  import opened ContextGuards

  // ---------- mutations ----------

  // A field of the context under the key, or what a new context has there.
  function Delivery(r: Registry, key: string): string {
    if key in r.contexts then r.contexts[key].deliveryId else ""
  }

  function Change(r: Registry, key: string): string {
    if key in r.contexts then r.contexts[key].changeSlug else ""
  }

  // The two fields that updaters set, and the state, after the update.
  predicate Updates(r: Registry, key: string, update: Update, after: Context) {
    match update
    case SetChange(slug) => after.changeSlug == slug && after.deliveryId == Delivery(r, key) && after.state == Active
    case ClearChange => after.changeSlug == "" && after.deliveryId == Delivery(r, key) && after.state == Active
    case SetDelivery(d) => after.deliveryId == d && after.changeSlug == Change(r, key) && after.state == Active
    case ClearDelivery => after.deliveryId == "" && after.changeSlug == Change(r, key) && after.state == Active
    case Custom(c) =>
      after.changeSlug == c.changeSlug && after.deliveryId == c.deliveryId && after.state == c.state
  }

  // The text of the identity if it gives one, else what the updater left there.
  predicate TakenText(after: string, given: string, left: string, limit: nat) {
    StoredText(after, if given != "" then given else left, limit)
  }

  function LeftBranch(r: Registry, key: string, update: Update, id: Identity): string {
    if update.Custom? then update.result.branch else if key in r.contexts then r.contexts[key].branch else id.branch
  }

  function LeftHead(r: Registry, key: string, update: Update, id: Identity): string {
    if update.Custom? then update.result.headSha else if key in r.contexts then r.contexts[key].headSha else id.headSha
  }

  // One revision further, under the ids of the identity, with its branch and head where it gives them, and of change
  // and delivery only what the updater sets.
  predicate Rewritten(r: Registry, key: string, update: Update, id: Identity, after: Context) {
    && after.revision == (if key in r.contexts then r.contexts[key].revision else 0) + 1
    && Updates(r, key, update, after)
    && after.projectId == id.projectId && after.repositoryId == id.repositoryId
    && after.worktreeId == id.worktreeId && after.workSessionId == id.workSessionId
    && TakenText(after.branch, id.branch, LeftBranch(r, key, update, id), 240)
    && TakenText(after.headSha, id.headSha, LeftHead(r, key, update, id), 80)
  }

  lemma CutIs(text: string, limit: nat)
    ensures StoredText(Cut(text, limit), text, limit) && Cut(Cut(text, limit), limit) == Cut(text, limit)
    ensures limit > 0 ==> (Cut(text, limit) == "" <==> text == "")
  {
  }

  // The branch or head that is sealed: the cut text of the identity, or the cut text that was left.
  lemma SealedText(given: string, left: string, limit: nat)
    requires limit > 0
    ensures TakenText(if Cut(given, limit) != "" then Cut(given, limit) else Cut(left, limit), given, left, limit)
  {
    CutIs(given, limit);
    CutIs(left, limit);
    hide Cut, StoredText;
  }

  lemma SealRewrites(r: Registry, c: Call)
    requires c.Mutate? && SameIdentity(Updated(r, c), c.id)
    ensures Rewritten(r, MutatedKey(c), c.update, c.id, SealContext(Updated(r, c), c.id, RevisionAt(r, MutatedKey(c))))
  {
    var id, key, u := c.id, MutatedKey(c), Updated(r, c);
    hide ContextKey, TakenText;
    SealedText(id.branch, u.branch, 240);
    SealedText(id.headSha, u.headSha, 80);
    SealedText(id.branch, id.branch, 240);
    SealedText(id.headSha, id.headSha, 80);
    CutIs(id.branch, 240);
    CutIs(id.headSha, 80);
    TakenOnce(id.branch, Cut(id.branch, 240), 240);
    TakenOnce(id.headSha, Cut(id.headSha, 80), 80);
    hide Cut, StoredText;
  }

  // Of a new context only the cut text of the identity is left.
  lemma TakenOnce(given: string, left: string, limit: nat)
    requires left == Cut(given, limit)
    ensures forall after :: TakenText(after, given, left, limit) ==> TakenText(after, given, given, limit)
  {
  }

  /** A permitted mutation writes exactly one context, under the identity's own key. */
  lemma MutateWrites(r: Registry, e: Event)
    requires Inv(r) && MayMutate(r, e.call)
    ensures var key, n := MutatedKey(e.call), Next(r, e);
            && n.reservations == r.reservations && n.tombstones == r.tombstones && n.sessions == r.sessions
            && n.revision == r.revision + 1 && n.contexts.Keys == r.contexts.Keys + {key}
            && (forall k | k in r.contexts && k != key :: n.contexts[k] == r.contexts[k])
            && Rewritten(r, key, e.call.update, e.call.id, n.contexts[key])
  {
    MutateExactly(r, e);
    SealRewrites(r, e.call);
    hide Inv, Transact, Next, Open, ContextKey, Rewritten, SealContext, Updated;
  }

  // ---------- phases and releases ----------

  /** A permitted phase update writes nothing but the phase of the reservation, cut to what is stored. */
  lemma PhaseWrites(r: Registry, e: Event)
    requires Inv(r) && e.call.Phase? && Transact(r, e).Committed?
    ensures var key, n := PairKey(e.call.repository, e.call.worktree), Next(r, e);
            && key in r.reservations && StoredText(n.reservations[key].detail.phase, e.call.phase, 48)
            && var held := r.reservations[key];
               n == r.(reservations :=
                 r.reservations[key := held.(detail := held.detail.(phase := n.reservations[key].detail.phase))])
  {
    hide Inv, ReservationGuard, TombstoneGuard, PairKey;
  }

  // The operation holds this reservation, it asks for it, or for all and holds no other, and its token fits.
  ghost predicate Freed(r: Registry, c: Call, j: string)
    requires c.Release? && j in r.reservations
  {
    && c.op != "" && r.reservations[j].operationId == c.op
    && (r.reservations[j].attemptToken == "" || r.reservations[j].attemptToken == c.token)
    && if c.repository != "" && c.worktree != "" then j == PairKey(c.repository, c.worktree)
       else forall i | i in r.reservations && r.reservations[i].operationId == c.op :: i == j
  }

  lemma OneHeld(r: Registry, op: string, j: string)
    requires j in r.reservations && r.reservations[j].operationId == op
    ensures |KeysHeldBy(r, op)| == 1
            <==> forall i | i in r.reservations && r.reservations[i].operationId == op :: i == j
  {
    var keys := KeysHeldBy(r, op);
    assert j in keys;
    if forall i | i in r.reservations && r.reservations[i].operationId == op :: i == j {
      assert keys == {j};
    }
    if |keys| == 1 {
      assert |keys - {j}| == 0;
      forall i | i in keys ensures i == j {
        assert i !in keys - {j};
      }
      assert forall i | i in r.reservations && r.reservations[i].operationId == op :: i in keys;
    }
  }

  /** A release always commits, and removes exactly the reservation that the call may free. */
  lemma ReleaseExactly(r: Registry, e: Event)
    requires e.call.Release?
    ensures Transact(r, e).Committed?
    ensures var n := Next(r, e);
            && n == r.(reservations := n.reservations)
            && (forall j | j in n.reservations :: j in r.reservations && n.reservations[j] == r.reservations[j])
            && forall j | j in r.reservations :: j !in n.reservations <==> Freed(r, e.call, j)
  {
    var c := e.call;
    var freed := if c.op == "" then {} else Released(r, c.op, c.repository, c.worktree, c.token);
    var n := r.(reservations := r.reservations - freed);
    forall j | j in r.reservations ensures j in freed <==> Freed(r, c, j) {
      if r.reservations[j].operationId == c.op {
        OneHeld(r, c.op, j);
      }
    }
    hide Freed;
    assert r.reservations - {} == r.reservations;
    ReleaseGuarded(r, n, c.op);
  }

  lemma ReleaseGuarded(r: Registry, n: Registry, op: string)
    requires n == r.(reservations := n.reservations)
    requires forall j | j in r.reservations && r.reservations[j].operationId != op ::
               j in n.reservations && n.reservations[j] == r.reservations[j]
    ensures ReservationGuard(r, n, op) && TombstoneGuard(r, n, op)
  {
    GuardsMean(r, n, op);
    assert forall s :: SameSessions(r, n, s);
    hide SameSessions, ReservationGuard, TombstoneGuard;
  }

  // ---------- the terminal mark ----------

  // Nothing of the subject is cut when it is stored.
  predicate WithinTexts(s: Subject) {
    && |s.workSessionId| <= 160 && |s.changeSlug| <= 160 && |s.actorContextId| <= 160 && |s.worktreePath| <= 1024
    && |s.mode| <= 32 && |s.authority| <= 240 && |s.head| <= 80 && |s.slug| <= 160 && |s.pullRequestNumber| <= 80
    && |s.pullRequestRepository| <= 240 && |s.headRefOid| <= 160 && |s.mergeCommitOid| <= 160
  }

  predicate HeldWith(r: Registry, worktree: string, token: string) {
    exists j :: j in r.reservations && r.reservations[j].subject.worktreeId == worktree
                && r.reservations[j].attemptToken == token
  }

  // A tombstone may be written again for the same subject and hash, as they are stored, by its own attempt or by the
  // attempt that now holds the reservation.
  ghost predicate MayRewrite(r: Registry, q: MarkRequest, t: Tombstone) {
    && t.operationId == q.operationId && t.subject == q.subject && t.detail.subjectHash == q.subjectHash
    && WithinTexts(q.subject) && |q.subjectHash| <= 240
    && (t.attemptToken == q.attemptToken
        || (q.attemptToken != "" && HeldWith(r, q.subject.worktreeId, q.attemptToken)))
  }

  ghost predicate MayMark(r: Registry, q: MarkRequest) {
    var s := q.subject;
    && IsId(q.operationId) && IsId(s.projectId) && IsId(s.repositoryId) && IsId(s.worktreeId) && q.subjectHash != ""
    && (forall k :: !ActiveAt(r, k, s.worktreeId))
    && (forall j | j in r.reservations && r.reservations[j].subject.worktreeId == s.worktreeId ::
          var held := r.reservations[j];
          && held.operationId == q.operationId && held.subject == s
          && (held.attemptToken == "" || held.attemptToken == q.attemptToken))
    && (forall j | j in r.tombstones && r.tombstones[j].subject.worktreeId == s.worktreeId ::
          MayRewrite(r, q, r.tombstones[j]))
    && (q.allowMissingReservation
        || (exists j :: j in r.reservations && r.reservations[j].subject.worktreeId == s.worktreeId)
        || (exists j :: j in r.tombstones && r.tombstones[j].subject.worktreeId == s.worktreeId))
  }

  predicate Marked(r: Registry, q: MarkRequest, n: Registry) {
    var key := PairKey(q.subject.repositoryId, q.subject.worktreeId);
    && n == r.(tombstones := n.tombstones) && n.tombstones.Keys == r.tombstones.Keys + {key}
    && (forall k | k in r.tombstones && k != key :: n.tombstones[k] == r.tombstones[k])
    && n.tombstones[key].operationId == q.operationId && StoredSubjectIs(n.tombstones[key].subject, q.subject)
    && StoredText(n.tombstones[key].attemptToken, q.attemptToken, 160)
    && StoredText(n.tombstones[key].detail.subjectHash, q.subjectHash, 240)
  }

  lemma MarkedExactly(r: Registry, q: MarkRequest, n: Registry)
    ensures Marked(r, q, n) <==> n == WithTombstone(r, q)
  {
    var m, key := WithTombstone(r, q), ClaimKey(q.subject);
    StoredExactly(q.subject, m.tombstones[key].subject);
    if Marked(r, q, n) {
      StoredExactly(q.subject, n.tombstones[key].subject);
      TextOnce(n.tombstones[key].attemptToken, q.attemptToken, 160);
      TextOnce(n.tombstones[key].detail.subjectHash, q.subjectHash, 240);
      hide StoredSubject, StoredSubjectIs, Cut, StoredText, PairKey;
      assert n.tombstones[key] == m.tombstones[key];
      assert n.tombstones == m.tombstones;
    }
    hide StoredSubject, StoredSubjectIs, PairKey;
  }

  lemma StoredWhole(s: Subject)
    ensures StoredSubject(s) == s <==> WithinTexts(s)
  {
  }

  // The tombstone of the worktree sits under the key that the mark writes, if it is for the same subject.
  lemma TombstoneHere(r: Registry, q: MarkRequest, j: string)
    requires Inv(r) && j in r.tombstones && r.tombstones[j].subject == q.subject
    ensures j == ClaimKey(q.subject)
  {
  }

  lemma ReservationHere(r: Registry, s: Subject)
    requires Inv(r) && IsId(s.worktreeId) && IsId(s.repositoryId)
    ensures forall j | j in r.reservations && r.reservations[j].subject.worktreeId == s.worktreeId ::
              FindReservation(r, s) == Some(r.reservations[j])
    ensures FindReservation(r, s).Some? ==>
              exists j :: j in r.reservations && r.reservations[j].subject.worktreeId == s.worktreeId
  {
    ClaimsHere(r.reservations, s.worktreeId, s.repositoryId);
    var any := AnyKey(r.reservations, s.worktreeId);
    if ClaimKey(s) in r.reservations {
      PlacedWorktree(r.reservations, s);
      OneClaim(r.reservations, ClaimKey(s));
    }
    hide AnyKey, OwnKey, FindClaim, PairKey;
  }

  // The guards of the transaction alone, on the one tombstone and the one reservation of the worktree.
  ghost predicate MayProposeMark(r: Registry, q: MarkRequest) {
    var s := q.subject;
    && IsId(q.operationId) && IsId(s.projectId) && IsId(s.repositoryId) && IsId(s.worktreeId) && q.subjectHash != ""
    && (forall k :: !ActiveAt(r, k, s.worktreeId))
    && (forall j | j in r.reservations && r.reservations[j].subject.worktreeId == s.worktreeId ::
          Releasable(r.reservations[j], q.operationId, q.attemptToken) && r.reservations[j].subject == s)
    && (forall j | j in r.tombstones && r.tombstones[j].subject.worktreeId == s.worktreeId ::
          r.tombstones[j].operationId == q.operationId && MayRemark(r.tombstones[j], FindReservation(r, s), q))
    && (q.allowMissingReservation
        || (exists j :: j in r.reservations && r.reservations[j].subject.worktreeId == s.worktreeId)
        || (exists j :: j in r.tombstones && r.tombstones[j].subject.worktreeId == s.worktreeId))
  }

  lemma TombstonesLet(r: Registry, q: MarkRequest, reserved: Option<Reservation>)
    requires Inv(r) && IsId(q.subject.worktreeId) && IsId(q.subject.repositoryId)
    ensures var t := FindClaim(r.tombstones, q.subject.worktreeId, q.subject.repositoryId);
            && (t.Some? <==> exists j :: j in r.tombstones
                                         && r.tombstones[j].subject.worktreeId == q.subject.worktreeId)
            && ((t.Some? ==> t.value.operationId == q.operationId && MayRemark(t.value, reserved, q))
                <==> forall j | j in r.tombstones && r.tombstones[j].subject.worktreeId == q.subject.worktreeId ::
                       r.tombstones[j].operationId == q.operationId && MayRemark(r.tombstones[j], reserved, q))
  {
    ClaimsHere(r.tombstones, q.subject.worktreeId, q.subject.repositoryId);
    hide FindClaim, OwnKey, AnyKey, MayRemark;
  }

  lemma ReservationsLet(r: Registry, q: MarkRequest)
    requires Inv(r) && IsId(q.subject.worktreeId) && IsId(q.subject.repositoryId)
    ensures var held := FindReservation(r, q.subject);
            && (held.Some? <==> exists j :: j in r.reservations
                                            && r.reservations[j].subject.worktreeId == q.subject.worktreeId)
            && ((held.Some? ==> Releasable(held.value, q.operationId, q.attemptToken)
                                && held.value.subject == q.subject)
                <==> forall j | j in r.reservations && r.reservations[j].subject.worktreeId == q.subject.worktreeId ::
                       Releasable(r.reservations[j], q.operationId, q.attemptToken)
                       && r.reservations[j].subject == q.subject)
  {
    ReservationHere(r, q.subject);
    hide Inv, FindReservation, Releasable;
  }

  lemma MarkProposes(r: Registry, q: MarkRequest)
    requires Inv(r)
    ensures MarkTx(r, q) == Committed(WithTombstone(r, q)) || MarkTx(r, q).Thrown?
    ensures MarkTx(r, q).Committed? <==> MayProposeMark(r, q)
  {
    var s := q.subject;
    if ValidClaimIds(q.operationId, s) {
      TombstonesLet(r, q, FindReservation(r, s));
      ReservationsLet(r, q);
      assert ActiveOn(r, s.worktreeId) == map[] <==> forall k :: !ActiveAt(r, k, s.worktreeId) by {
        assert forall k :: k in ActiveOn(r, s.worktreeId) <==> ActiveAt(r, k, s.worktreeId);
      }
      hide Inv, FindClaim, FindReservation, ActiveOn, ActiveAt, MayRemark, Releasable, WithTombstone;
    }
  }

  lemma MarkGuarded(r: Registry, q: MarkRequest)
    requires Inv(r) && MayProposeMark(r, q)
    ensures var n := WithTombstone(r, q);
            ReservationGuard(r, n, q.operationId) && TombstoneGuard(r, n, q.operationId)
            <==> forall j | j in r.tombstones && r.tombstones[j].subject.worktreeId == q.subject.worktreeId ::
                   SameTerminalIdentity(n, j, r.tombstones[j])
  {
    var n, op, w := WithTombstone(r, q), q.operationId, q.subject.worktreeId;
    assert forall v :: ActiveOn(n, v) == ActiveOn(r, v);
    assert forall s, p :: SessionsOf(n, s, p) == SessionsOf(r, s, p);
    forall j | j in r.tombstones && r.tombstones[j].subject.worktreeId != w
      ensures j in n.tombstones && n.tombstones[j] == r.tombstones[j]
    {
      if j == ClaimKey(q.subject) {
        PlacedWorktree(r.tombstones, q.subject);
      }
    }
    hide Inv, ActiveOn, SessionsOf, MayRemark, FindReservation, Releasable, PairKey, StoredSubject, HeldWith, ActiveAt;
  }

  // With the commit guards, a rewrite needs the stored forms to agree, and so the conditions of `MayRewrite`.
  lemma RewriteExactly(r: Registry, q: MarkRequest, j: string)
    requires Inv(r) && j in r.tombstones && r.tombstones[j].subject.worktreeId == q.subject.worktreeId
    requires IsId(q.subject.worktreeId) && IsId(q.subject.repositoryId)
    requires forall i | i in r.reservations && r.reservations[i].subject.worktreeId == q.subject.worktreeId ::
               Releasable(r.reservations[i], q.operationId, q.attemptToken) && r.reservations[i].subject == q.subject
    ensures var t := r.tombstones[j];
            (t.operationId == q.operationId && MayRemark(t, FindReservation(r, q.subject), q)
             && SameTerminalIdentity(WithTombstone(r, q), j, t))
            <==> MayRewrite(r, q, t)
  {
    var t, n, key := r.tombstones[j], WithTombstone(r, q), ClaimKey(q.subject);
    ReservationHere(r, q.subject);
    StoredWhole(q.subject);
    if t.subject == q.subject {
      TombstoneHere(r, q, j);
      HeldHere(r, q.subject, q.attemptToken);
      assert |t.attemptToken| <= 160;
      assert forall i | i in r.reservations :: |r.reservations[i].attemptToken| <= 160;
      hide Inv, FindReservation, StoredSubject, WithinTexts, PairKey, HeldWith;
    }
  }

  lemma HeldHere(r: Registry, s: Subject, token: string)
    requires Inv(r) && IsId(s.repositoryId)
    requires forall i | i in r.reservations && r.reservations[i].subject.worktreeId == s.worktreeId ::
               r.reservations[i].subject == s
    ensures HeldWith(r, s.worktreeId, token)
            <==> ClaimKey(s) in r.reservations && r.reservations[ClaimKey(s)].attemptToken == token
  {
    if ClaimKey(s) in r.reservations {
      PlacedWorktree(r.reservations, s);
    }
  }

  /**
   A tombstone is written exactly on an idle worktree, by the operation that alone claims it, under its reservation's
   token or where none is needed; written again only for what is stored there already, by the attempt that wrote it or
   the one that now holds the reservation. Then exactly this tombstone is written.
   */
  lemma MarkExactly(r: Registry, e: Event)
    requires Inv(r) && e.call.Mark?
    ensures Transact(r, e).Committed? <==> MayMark(r, e.call.mark)
    ensures if MayMark(r, e.call.mark) then Marked(r, e.call.mark, Next(r, e)) else Next(r, e) == r
  {
    var q := e.call.mark;
    MarkProposes(r, q);
    MarkedExactly(r, q, WithTombstone(r, q));
    MayMarkParts(r, q);
    if MayProposeMark(r, q) {
      MarkGuarded(r, q);
    }
    hide Inv, MarkTx, ReservationGuard, TombstoneGuard, MayMark, MayProposeMark, Marked, WithTombstone,
         SameTerminalIdentity;
  }

  lemma MayMarkParts(r: Registry, q: MarkRequest)
    requires Inv(r)
    ensures MayMark(r, q)
            <==> && MayProposeMark(r, q)
                 && forall j | j in r.tombstones && r.tombstones[j].subject.worktreeId == q.subject.worktreeId ::
                      SameTerminalIdentity(WithTombstone(r, q), j, r.tombstones[j])
  {
    var s := q.subject;
    if IsId(s.worktreeId) && IsId(s.repositoryId)
       && forall i | i in r.reservations && r.reservations[i].subject.worktreeId == s.worktreeId ::
            Releasable(r.reservations[i], q.operationId, q.attemptToken) && r.reservations[i].subject == s {
      forall j | j in r.tombstones && r.tombstones[j].subject.worktreeId == s.worktreeId
        ensures (r.tombstones[j].operationId == q.operationId && MayRemark(r.tombstones[j], FindReservation(r, s), q)
                 && SameTerminalIdentity(WithTombstone(r, q), j, r.tombstones[j]))
                <==> MayRewrite(r, q, r.tombstones[j])
      {
        RewriteExactly(r, q, j);
      }
    }
    hide Inv, WithTombstone, SameTerminalIdentity, MayRewrite, MayRemark, FindReservation, ActiveAt;
  }
}
