/** The red half of finishing a FLOW: what the recorded attempt says, reason by reason. */
module FlowRed {
  import opened Common
  import opened FlowSnapshot
  import opened FlowStore
  import opened FlowFinish
  import opened FlowFinishRuns

  // ---------- reasons ----------

  ghost predicate IsSafe(s: Snapshot) {
    |s.hidden| + |s.unsafeMetadata| + |s.unsafeWorktree| + |s.unsafePhysical| == 0
  }

  // The last entry of the sensor is green or of warning severity.
  ghost predicate Passed(evidence: seq<Evidence>, id: string) {
    exists i :: 0 <= i < |evidence| && evidence[i].id == id && (evidence[i].green || evidence[i].warning)
                && forall j | i < j < |evidence| :: evidence[j].id != id
  }

  // Why the state before the sensors is red.
  ghost predicate ReasonBefore(pol: Policy, c: Contract, o: Observations, s: Snapshot, f: Failure) {
    match f
    case RootMoved => c.baseline.root != s.root
    case HeadMoved => c.baseline.head != s.head
    case MetadataMoved => c.baseline.metadata != s.metadata || c.baseline.hidden != s.hidden
    case UnsafeSnapshot => !IsSafe(s)
    case NothingChanged => forall p :: !Differs(c.baseline, s, p)
    case OutsideAllowlist(p) => Differs(c.baseline, s, p) && !PathAllowed(p, c.allowedPaths)
    case ProtectedSurface(p) => Differs(c.baseline, s, p) && pol.protects(p, c.protectedRoots)
    case DiffCheckRed => !o.diffClean
    case SensorConfigFailed => o.definitions.None?
    case SensorDefinitionChanged => o.definitions.Some? && o.definitions.value != c.sensorHash
    case _ => false
  }

  // Why the state after the sensors is red.
  ghost predicate ReasonAfter(pol: Policy, c: Contract, o: Observations, s: Snapshot, f: Failure) {
    match f
    case SensorRed => exists i :: 0 <= i < |c.sensorIds| && !Passed(o.evidence, c.sensorIds[i])
    case AfterSensorsUnconfirmed => o.after.None? || !o.afterTopology
    case SensorMutation => o.after.Some? && !SameEverywhere(s, o.after.value)
    case UnsafeSnapshot => o.after.Some? && !IsSafe(o.after.value)
    case OutsideAllowlist(p) =>
      o.after.Some? && Differs(c.baseline, o.after.value, p) && !PathAllowed(p, c.allowedPaths)
    case ProtectedSurface(p) =>
      o.after.Some? && Differs(c.baseline, o.after.value, p) && pol.protects(p, c.protectedRoots)
    case _ => false
  }

  // The snapshot whose paths are reported once the sensors have run.
  function Reported(o: Observations, s: Snapshot): Snapshot {
    if o.after.Some? then o.after.value else s
  }

  ghost predicate ChangedSince(c: Contract, s: Snapshot, paths: set<Path>) {
    forall p :: p in paths <==> Differs(c.baseline, s, p)
  }

  // What the attempt of a red finishing says.
  ghost predicate Tells(pol: Policy, c: Contract, o: Observations, a: Attempt) {
    if !o.topology then a.failures == {TopologyFailed} && a.changedPaths == {} && a.evidence == []
    else if o.current.None? then a.failures == {ScanFailed} && a.changedPaths == {} && a.evidence == []
    else
      var s := o.current.value;
      if exists f :: ReasonBefore(pol, c, o, s, f) then
        && (forall f :: f in a.failures <==> ReasonBefore(pol, c, o, s, f))
        && ChangedSince(c, s, a.changedPaths) && a.evidence == []
      else if exists f :: ReasonAfter(pol, c, o, s, f) then
        && (forall f :: f in a.failures <==> ReasonAfter(pol, c, o, s, f))
        && ChangedSince(c, Reported(o, s), a.changedPaths) && a.evidence == o.evidence
      else a.failures == {TerminalFailed} && ChangedSince(c, s, a.changedPaths) && a.evidence == o.evidence
  }

  // ---------- the failures are the reasons ----------

  lemma {:induction false} PassedExactly(evidence: seq<Evidence>, id: string)
    ensures Passes(evidence, id) <==> Passed(evidence, id)
  {
    if evidence != [] {
      var n := |evidence| - 1;
      PassedExactly(evidence[..n], id);
      if evidence[n].id != id {
        if Passed(evidence[..n], id) {
          var i :| 0 <= i < n && evidence[..n][i].id == id && (evidence[..n][i].green || evidence[..n][i].warning)
                   && forall j | i < j < n :: evidence[..n][j].id != id;
          assert evidence[i].id == id && forall j | i < j < |evidence| :: evidence[j].id != id;
        }
        if Passed(evidence, id) {
          var i :| 0 <= i < |evidence| && evidence[i].id == id && (evidence[i].green || evidence[i].warning)
                   && forall j | i < j < |evidence| :: evidence[j].id != id;
          assert evidence[..n][i].id == id && forall j | i < j < n :: evidence[..n][j].id != id;
        }
      } else {
        if Passed(evidence, id) {
          var i :| 0 <= i < |evidence| && evidence[i].id == id && (evidence[i].green || evidence[i].warning)
                   && forall j | i < j < |evidence| :: evidence[j].id != id;
          assert i == n;
        }
        if Passes(evidence, id) {
          assert evidence[n].id == id && (evidence[n].green || evidence[n].warning);
        }
      }
    }
  }

  lemma SafeExactly(s: Snapshot)
    ensures Safe(s) <==> IsSafe(s)
  {
  }

  lemma PathReasons(pol: Policy, c: Contract, paths: set<Path>, f: Failure)
    ensures f in PathFailures(pol, c, paths)
            <==> match f
                 case OutsideAllowlist(p) => p in paths && !PathAllowed(p, c.allowedPaths)
                 case ProtectedSurface(p) => p in paths && pol.protects(p, c.protectedRoots)
                 case _ => false
  {
    hide PathAllowed;
  }

  lemma DiffPaths(c: Contract, s: Snapshot)
    ensures ChangedSince(c, s, DiffSnapshots(c.baseline, s).changedPaths)
    ensures DiffSnapshots(c.baseline, s).changedPaths == {} <==> forall p :: !Differs(c.baseline, s, p)
  {
    forall p ensures p in DiffSnapshots(c.baseline, s).changedPaths <==> Differs(c.baseline, s, p) {
      ChangedExactly(c.baseline, s, p);
    }
    hide Differs;
  }

  lemma DiffFields(c: Contract, s: Snapshot)
    ensures var d := DiffSnapshots(c.baseline, s);
            && d.rootChanged == (c.baseline.root != s.root) && d.headChanged == (c.baseline.head != s.head)
            && d.metadataChanged == (c.baseline.metadata != s.metadata || c.baseline.hidden != s.hidden)
  {
  }

  lemma BeforeReasons(pol: Policy, c: Contract, o: Observations, s: Snapshot)
    ensures forall f :: f in BeforeSensors(pol, c, o, s) <==> ReasonBefore(pol, c, o, s, f)
  {
    var paths := DiffSnapshots(c.baseline, s).changedPaths;
    DiffPaths(c, s);
    DiffFields(c, s);
    SafeExactly(s);
    hide PathFailures, Differs, PathAllowed, Safe, IsSafe, DiffSnapshots;
    forall f ensures f in BeforeSensors(pol, c, o, s) <==> ReasonBefore(pol, c, o, s, f) {
      PathReasons(pol, c, paths, f);
    }
  }

  lemma GateReasons(evidence: seq<Evidence>, ids: seq<string>)
    ensures !GateOk(evidence, ids) <==> exists i :: 0 <= i < |ids| && !Passed(evidence, ids[i])
  {
    forall i | 0 <= i < |ids| ensures Passes(evidence, ids[i]) <==> Passed(evidence, ids[i]) {
      PassedExactly(evidence, ids[i]);
    }
    hide Passes, Passed;
  }

  // Where the sensors left everything as it was, what differs from the baseline is the same before and after.
  lemma PathsReported(c: Contract, o: Observations, s: Snapshot)
    ensures ChangedSince(c, Reported(o, s), PathsAfterSensors(c, o, s))
  {
    DiffPaths(c, Reported(o, s));
    DiffPaths(c, s);
    if o.after.Some? && DiffSnapshots(s, o.after.value).Quiet() {
      QuietComposes(c.baseline, s, o.after.value);
    }
    hide DiffSnapshots, Differs;
  }

  lemma AfterReasons(pol: Policy, c: Contract, o: Observations, s: Snapshot)
    ensures forall f :: f in AfterSensors(pol, c, o, s) <==> ReasonAfter(pol, c, o, s, f)
  {
    GateReasons(o.evidence, c.sensorIds);
    PathsReported(c, o, s);
    if o.after.Some? {
      QuietIsSame(s, o.after.value);
      SafeExactly(o.after.value);
    }
    forall f ensures f in AfterSensors(pol, c, o, s) <==> ReasonAfter(pol, c, o, s, f) {
      PathReasons(pol, c, PathsAfterSensors(c, o, s), f);
      hide PathFailures, Differs, PathAllowed, Safe, IsSafe, GateOk, Passed, DiffSnapshots, SameEverywhere,
           PathsAfterSensors;
    }
  }

  // ---------- the attempt ----------

  lemma RedTells(pol: Policy, c: Contract, o: Observations, id: string) returns (a: Attempt)
    requires !Justified(pol, c, o)
    ensures a.id == id && a.failures != {} && Tells(pol, c, o, a)
    ensures Assess(pol, c, o) == Red(a.failures, a.changedPaths, a.evidence)
  {
    GreenExactly(pol, c, o);
    var v := Assess(pol, c, o);
    a := Attempt(id, v.failures, v.changedPaths, v.evidence);
    if o.topology && o.current.Some? {
      var s := o.current.value;
      BeforeReasons(pol, c, o, s);
      AfterReasons(pol, c, o, s);
      DiffPaths(c, s);
      PathsReported(c, o, s);
      TerminalPaths(pol, c, o, s);
      hide Justified, BeforeSensors, AfterSensors, ReasonBefore, ReasonAfter, TerminalOk, PathsAfterSensors,
           DiffSnapshots, Safe, ChangedSince;
      var before, after := BeforeSensors(pol, c, o, s), AfterSensors(pol, c, o, s);
      assert before != {} <==> exists f :: ReasonBefore(pol, c, o, s, f);
      assert after != {} <==> exists f :: ReasonAfter(pol, c, o, s, f);
    }
  }

  // Once the sensors have left everything as it was, either report is that of the state before them.
  lemma TerminalPaths(pol: Policy, c: Contract, o: Observations, s: Snapshot)
    ensures AfterSensors(pol, c, o, s) == {} ==>
              && ChangedSince(c, s, PathsAfterSensors(c, o, s))
              && (o.terminal.Some? && DiffSnapshots(s, o.terminal.value).Quiet() ==>
                    ChangedSince(c, s, DiffSnapshots(c.baseline, o.terminal.value).changedPaths))
  {
    DiffPaths(c, s);
    if AfterSensors(pol, c, o, s) == {} {
      assert SensorMutation !in AfterSensors(pol, c, o, s);
      if o.terminal.Some? && DiffSnapshots(s, o.terminal.value).Quiet() {
        QuietComposes(c.baseline, s, o.terminal.value);
      }
      AfterQuiet(pol, c, o, s);
    }
    hide DiffSnapshots, Differs, AfterSensors;
  }

  lemma AfterQuiet(pol: Policy, c: Contract, o: Observations, s: Snapshot)
    requires AfterSensors(pol, c, o, s) == {}
    ensures PathsAfterSensors(c, o, s) == DiffSnapshots(c.baseline, s).changedPaths
  {
    AfterReasons(pol, c, o, s);
    hide AfterSensors, Safe, PathFailures;
    assert !ReasonAfter(pol, c, o, s, AfterSensorsUnconfirmed) && !ReasonAfter(pol, c, o, s, SensorMutation);
    QuietIsSame(s, o.after.value);
  }

  /**
   An active flow that is not justified ends with exactly one more attempt, which says why, what had changed, and what
   the sensors said; everything else stays. Only a path that is not canonical, or an id that stands for another
   attempt, keeps it from being recorded.
   */
  lemma RedExactly(pol: Policy, st: Store, k: Key, o: Observations, id: string) returns (a: Attempt)
    requires k in st && Consistent(pol, k, st[k]) && st[k].Active() && !Justified(pol, st[k].contract, o)
    ensures a.id == id && a.failures != {} && Tells(pol, st[k].contract, o, a)
    ensures FinishCall(pol, st, k, o, id)
            == if exists p :: p in a.changedPaths && !pol.canonical(p) then (st, Failed(Corrupt))
               else if id in st[k].attempts && st[k].attempts[id] != a then (st, Failed(ImmutableConflict))
               else (st[k := st[k].(attempts := st[k].attempts[id := a])], Rejected(a.failures))
  {
    a := RedTells(pol, st[k].contract, o, id);
    hide Assess, Justified, Tells, Consistent;
    if id in st[k].attempts && st[k].attempts[id] == a {
      assert st[k].attempts[id := a] == st[k].attempts;
    }
  }

  /** A flow that is unreadable, finished or promoting is left as it is, and a finished one is finished again. */
  lemma FinishElsewhere(pol: Policy, st: Store, k: Key, o: Observations, id: string)
    requires k !in st || !Consistent(pol, k, st[k]) || !st[k].Active()
    ensures var (after, answer) := FinishCall(pol, st, k, o, id);
            && after == st && !answer.Rejected?
            && (answer.Finished? <==> k in st && Consistent(pol, k, st[k]) && st[k].receipt.Some?)
            && (answer.Finished? ==> answer == Finished(o.projected, true))
            && (answer == Failed(Terminal)
                <==> k in st && Consistent(pol, k, st[k]) && st[k].receipt.None?
                     && (st[k].promotion.Some? || st[k].reservation.Some?))
  {
    hide Assess, Consistent;
  }
}
