/**
 Finishing a FLOW (hooks/flow-core.mjs): three snapshots around the sensors decide between a receipt and a
 recorded red attempt. What Git, the file system and the sensors answer are the observations.
 */
module FlowFinish {
  import opened Common
  import opened FlowSnapshot
  import opened FlowStore

  // A snapshot is absent when taking it fails; `definitions` is the hash of the loaded sensor definitions.
  datatype Observations = Observations(
    topology: bool, current: Option<Snapshot>, diffClean: bool,
    definitions: Option<int>, evidence: seq<Evidence>,
    after: Option<Snapshot>, afterTopology: bool,
    terminal: Option<Snapshot>, terminalClean: bool, terminalTopology: bool,
    projected: bool)

  datatype Verdict =
    | Red(failures: set<Failure>, changedPaths: set<Path>, evidence: seq<Evidence>)
    | Green(receipt: Receipt)

  function When(holds: bool, f: Failure): set<Failure> {
    if holds then {f} else {}
  }

  function PathFailures(pol: Policy, c: Contract, paths: set<Path>): set<Failure> {
    (set p | p in paths && !PathAllowed(p, c.allowedPaths) :: OutsideAllowlist(p))
    + (set p | p in paths && pol.protects(p, c.protectedRoots) :: ProtectedSurface(p))
  }

  // The last entry of an id counts.
  function EvidenceOf(evidence: seq<Evidence>, id: string): Option<Evidence> {
    if evidence == [] then None
    else if evidence[|evidence| - 1].id == id then Some(evidence[|evidence| - 1])
    else EvidenceOf(evidence[..|evidence| - 1], id)
  }

  predicate Passes(evidence: seq<Evidence>, id: string) {
    var e := EvidenceOf(evidence, id);
    e.Some? && (e.value.green || e.value.warning)
  }

  predicate GateOk(evidence: seq<Evidence>, ids: seq<string>) {
    forall i | 0 <= i < |ids| :: Passes(evidence, ids[i])
  }

  // ---------- the decision ----------

  function BeforeSensors(pol: Policy, c: Contract, o: Observations, current: Snapshot): set<Failure> {
    var d := DiffSnapshots(c.baseline, current);
    When(d.rootChanged, RootMoved) + When(d.headChanged, HeadMoved) + When(d.metadataChanged, MetadataMoved)
    + When(!Safe(current), UnsafeSnapshot) + When(d.changedPaths == {}, NothingChanged)
    + PathFailures(pol, c, d.changedPaths) + When(!o.diffClean, DiffCheckRed)
    + When(o.definitions.None?, SensorConfigFailed)
    + When(o.definitions.Some? && o.definitions.value != c.sensorHash, SensorDefinitionChanged)
  }

  function PathsAfterSensors(c: Contract, o: Observations, current: Snapshot): set<Path> {
    if o.after.Some? && !DiffSnapshots(current, o.after.value).Quiet() then
      DiffSnapshots(c.baseline, o.after.value).changedPaths
    else DiffSnapshots(c.baseline, current).changedPaths
  }

  function AfterSensors(pol: Policy, c: Contract, o: Observations, current: Snapshot): set<Failure> {
    When(!GateOk(o.evidence, c.sensorIds), SensorRed)
    + if o.after.None? then {AfterSensorsUnconfirmed}
      else
        When(!DiffSnapshots(current, o.after.value).Quiet(), SensorMutation)
        + When(!Safe(o.after.value), UnsafeSnapshot)
        + PathFailures(pol, c, PathsAfterSensors(c, o, current))
        + When(!o.afterTopology, AfterSensorsUnconfirmed)
  }

  predicate TerminalOk(pol: Policy, c: Contract, o: Observations, current: Snapshot) {
    && o.terminal.Some? && DiffSnapshots(current, o.terminal.value).Quiet() && Safe(o.terminal.value)
    && PathFailures(pol, c, DiffSnapshots(c.baseline, o.terminal.value).changedPaths) == {}
    && o.terminalClean && o.terminalTopology
  }

  function ReceiptOf(c: Contract, o: Observations, terminal: Snapshot): Receipt {
    Receipt(c.key.flow, c.reason, c.allowedPaths, c.sensorIds, DiffSnapshots(c.baseline, terminal).changedPaths,
            o.evidence, c.baseline.head, terminal.head)
  }

  function Assess(pol: Policy, c: Contract, o: Observations): Verdict {
    if !o.topology then Red({TopologyFailed}, {}, [])
    else if o.current.None? then Red({ScanFailed}, {}, [])
    else
      var current := o.current.value;
      var before := BeforeSensors(pol, c, o, current);
      if before != {} then Red(before, DiffSnapshots(c.baseline, current).changedPaths, [])
      else
        var after := AfterSensors(pol, c, o, current);
        if after != {} then Red(after, PathsAfterSensors(c, o, current), o.evidence)
        else if !TerminalOk(pol, c, o, current) then
          Red({TerminalFailed},
              if o.terminal.Some? && DiffSnapshots(current, o.terminal.value).Quiet() && Safe(o.terminal.value)
              then DiffSnapshots(c.baseline, o.terminal.value).changedPaths
              else PathsAfterSensors(c, o, current),
              o.evidence)
        else Green(ReceiptOf(c, o, o.terminal.value))
  }

  // ---------- what a receipt is worth ----------

  predicate SameRepository(a: Snapshot, b: Snapshot) {
    a.root == b.root && a.head == b.head && a.metadata == b.metadata && a.hidden == b.hidden
  }

  ghost predicate SameEverywhere(a: Snapshot, b: Snapshot) {
    SameRepository(a, b) && forall p :: !Differs(a, b, p)
  }

  // The work tree differs from the baseline, only on allowed paths, and on no protected one.
  ghost predicate WithinContract(pol: Policy, c: Contract, s: Snapshot) {
    && (exists p :: Differs(c.baseline, s, p))
    && (forall p | Differs(c.baseline, s, p) :: PathAllowed(p, c.allowedPaths) && !pol.protects(p, c.protectedRoots))
  }

  // What a receipt vouches for: one state of the repository before, after and at the end, changed within the
  // contract against the baseline, with the frozen sensors passed on it.
  ghost predicate Justified(pol: Policy, c: Contract, o: Observations) {
    && o.current.Some? && o.after.Some? && o.terminal.Some?
    && SameRepository(c.baseline, o.terminal.value) && WithinContract(pol, c, o.terminal.value)
    && SameEverywhere(o.current.value, o.after.value) && SameEverywhere(o.current.value, o.terminal.value)
    && Safe(o.current.value) && Safe(o.after.value) && Safe(o.terminal.value)
    && o.definitions == Some(c.sensorHash) && GateOk(o.evidence, c.sensorIds)
    && o.topology && o.diffClean && o.afterTopology && o.terminalClean && o.terminalTopology
  }

  lemma QuietIsSame(a: Snapshot, b: Snapshot)
    ensures DiffSnapshots(a, b).Quiet() <==> SameEverywhere(a, b)
  {
    if DiffSnapshots(a, b).Quiet() {
      forall p ensures !Differs(a, b, p) {
        ChangedExactly(a, b, p);
      }
    }
  }

  lemma NoPathFailures(pol: Policy, c: Contract, paths: set<Path>)
    ensures PathFailures(pol, c, paths) == {}
            <==> forall p | p in paths :: PathAllowed(p, c.allowedPaths) && !pol.protects(p, c.protectedRoots)
  {
    hide PathAllowed;
    if PathFailures(pol, c, paths) == {} {
      forall p | p in paths ensures PathAllowed(p, c.allowedPaths) && !pol.protects(p, c.protectedRoots) {
        assert OutsideAllowlist(p) !in PathFailures(pol, c, paths);
        assert ProtectedSurface(p) !in PathFailures(pol, c, paths);
      }
    }
  }

  lemma WithinExactly(pol: Policy, c: Contract, s: Snapshot)
    ensures var paths := DiffSnapshots(c.baseline, s).changedPaths;
            paths != {} && PathFailures(pol, c, paths) == {} <==> WithinContract(pol, c, s)
  {
    var paths := DiffSnapshots(c.baseline, s).changedPaths;
    NoPathFailures(pol, c, paths);
    forall p ensures p in paths <==> Differs(c.baseline, s, p) {
      ChangedExactly(c.baseline, s, p);
    }
    hide DiffSnapshots, PathFailures, PathAllowed, Differs;
    if paths != {} {
      var p :| p in paths;
    }
  }

  lemma BeforeExactly(pol: Policy, c: Contract, o: Observations, current: Snapshot)
    ensures BeforeSensors(pol, c, o, current) == {}
            <==> && SameRepository(c.baseline, current) && WithinContract(pol, c, current) && Safe(current)
                 && o.diffClean && o.definitions == Some(c.sensorHash)
  {
    WithinExactly(pol, c, current);
    var d := DiffSnapshots(c.baseline, current);
    hide WithinContract, PathFailures, Safe;
    UnionEmpty(When(d.rootChanged, RootMoved), When(d.headChanged, HeadMoved));
  }

  lemma UnionEmpty<T>(a: set<T>, b: set<T>)
    ensures a + b == {} <==> a == {} && b == {}
  {
  }

  lemma AfterExactly(pol: Policy, c: Contract, o: Observations, current: Snapshot)
    requires WithinContract(pol, c, current)
    ensures AfterSensors(pol, c, o, current) == {}
            <==> && GateOk(o.evidence, c.sensorIds) && o.after.Some? && SameEverywhere(current, o.after.value)
                 && Safe(o.after.value) && o.afterTopology
  {
    WithinExactly(pol, c, current);
    if o.after.Some? {
      QuietIsSame(current, o.after.value);
    }
    hide GateOk, SameEverywhere, WithinContract, PathFailures, Safe, DiffSnapshots;
  }

  lemma TerminalExactly(pol: Policy, c: Contract, o: Observations, current: Snapshot)
    requires SameRepository(c.baseline, current) && WithinContract(pol, c, current)
    ensures TerminalOk(pol, c, o, current)
            <==> && o.terminal.Some? && SameEverywhere(current, o.terminal.value) && Safe(o.terminal.value)
                 && o.terminalClean && o.terminalTopology
    ensures TerminalOk(pol, c, o, current) ==>
              SameRepository(c.baseline, o.terminal.value) && WithinContract(pol, c, o.terminal.value)
  {
    if o.terminal.Some? {
      QuietIsSame(current, o.terminal.value);
      if DiffSnapshots(current, o.terminal.value).Quiet() {
        QuietComposes(c.baseline, current, o.terminal.value);
      }
      WithinExactly(pol, c, o.terminal.value);
    }
    WithinExactly(pol, c, current);
    hide WithinContract, PathFailures, Safe, DiffSnapshots, Differs;
  }

  /**
   Emptiness of the change is looked at before the sensors only, and still the verdict is green exactly when
   justified.
   */
  lemma GreenExactly(pol: Policy, c: Contract, o: Observations)
    ensures Assess(pol, c, o).Green? <==> Justified(pol, c, o)
  {
    if o.topology && o.current.Some? {
      var current := o.current.value;
      BeforeExactly(pol, c, o, current);
      if BeforeSensors(pol, c, o, current) == {} {
        AfterExactly(pol, c, o, current);
        TerminalExactly(pol, c, o, current);
      }
      if o.terminal.Some? && SameEverywhere(current, o.terminal.value) {
        SameTransfers(pol, c, current, o.terminal.value);
      }
      hide BeforeSensors, AfterSensors, TerminalOk, SameEverywhere, WithinContract, Safe, GateOk;
    }
  }

  lemma SameTransfers(pol: Policy, c: Contract, a: Snapshot, b: Snapshot)
    requires SameEverywhere(a, b)
    ensures WithinContract(pol, c, a) <==> WithinContract(pol, c, b)
    ensures SameRepository(c.baseline, a) <==> SameRepository(c.baseline, b)
  {
    hide PathAllowed;
    forall p ensures Differs(c.baseline, a, p) <==> Differs(c.baseline, b, p) {
      assert !Differs(a, b, p);
    }
    hide Differs;
  }

  /** What is in a receipt: every changed path, at least one, allowed and unprotected, on the frozen HEAD. */
  lemma ReceiptSound(pol: Policy, c: Contract, o: Observations)
    requires Assess(pol, c, o).Green?
    ensures var r := Assess(pol, c, o).receipt;
            && r.changedPaths != {} && r.finalHead == r.baselineHead == c.baseline.head
            && (forall p :: p in r.changedPaths <==> Differs(c.baseline, o.terminal.value, p))
            && (forall p | p in r.changedPaths :: PathAllowed(p, c.allowedPaths) && !pol.protects(p, c.protectedRoots))
            && r.flow == c.key.flow && r.reason == c.reason && r.allowedPaths == c.allowedPaths
            && r.sensorIds == c.sensorIds && r.evidence == o.evidence
            && r == ReceiptOf(c, o, o.terminal.value)
  {
    GreenExactly(pol, c, o);
    WithinExactly(pol, c, o.terminal.value);
    NoPathFailures(pol, c, DiffSnapshots(c.baseline, o.terminal.value).changedPaths);
    forall p ensures p in DiffSnapshots(c.baseline, o.terminal.value).changedPaths
        <==> Differs(c.baseline, o.terminal.value, p) {
      ChangedExactly(c.baseline, o.terminal.value, p);
    }
    hide BeforeSensors, AfterSensors, TerminalOk, PathAllowed, PathFailures, WithinContract, Differs, DiffSnapshots;
  }
}
