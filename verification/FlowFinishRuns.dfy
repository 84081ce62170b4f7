/** Finishing against the store: the method, exactly when it leaves a receipt, and what any receipt vouches for. */
module FlowFinishRuns {
  import opened Common
  import opened FlowSnapshot
  import opened FlowStore
  import opened FlowFinish

  datatype Answer = Rejected(failures: set<Failure>) | Finished(ok: bool, repeated: bool) | Failed(error: Error)

  function Answered(o: Outcome, st: Store, answer: Answer): (Store, Answer) {
    match o
    case Done(next) => (next, answer)
    case Thrown(error) => (st, Failed(error))
  }

  function FinishCall(pol: Policy, st: Store, k: Key, o: Observations, attemptId: string): (Store, Answer) {
    if k !in st then (st, Failed(NotFound))
    else if !Consistent(pol, k, st[k]) then (st, Failed(Corrupt))
    else if st[k].receipt.Some? then (st, Finished(o.projected, true))
    else if !st[k].Active() then (st, Failed(Terminal))
    else match Assess(pol, st[k].contract, o)
      case Red(failures, paths, evidence) =>
        Answered(Apply(pol, st, Append(k, Attempt(attemptId, failures, paths, evidence))), st, Rejected(failures))
      case Green(receipt) =>
        Answered(Apply(pol, st, WriteReceipt(k, receipt)), st, Finished(o.projected, false))
  }

  /** The path loop: one failure for every path outside the allowlist and one for every protected path. */
  method JudgePaths(pol: Policy, c: Contract, paths: set<Path>) returns (failures: set<Failure>)
    ensures failures == PathFailures(pol, c, paths)
  {
    hide PathAllowed;
    failures := {};
    var todo := paths;
    while todo != {}
      invariant todo <= paths && failures == PathFailures(pol, c, paths - todo)
      decreases todo
    {
      var p :| p in todo;
      assert paths - (todo - {p}) == (paths - todo) + {p};
      if !PathAllowed(p, c.allowedPaths) {
        failures := failures + {OutsideAllowlist(p)};
      }
      if pol.protects(p, c.protectedRoots) {
        failures := failures + {ProtectedSurface(p)};
      }
      todo := todo - {p};
    }
    assert paths - todo == paths;
  }

  lemma NoteWhen(failures: set<Failure>, bad: bool, f: Failure)
    ensures failures + When(bad, f) == if bad then failures + {f} else failures
  {
  }

  lemma BeforeIs(pol: Policy, c: Contract, o: Observations, current: Snapshot)
    ensures var d := DiffSnapshots(c.baseline, current);
            BeforeSensors(pol, c, o, current)
            == {} + When(d.rootChanged, RootMoved) + When(d.headChanged, HeadMoved)
                + When(d.metadataChanged, MetadataMoved)
               + When(!Safe(current), UnsafeSnapshot) + When(d.changedPaths == {}, NothingChanged)
               + PathFailures(pol, c, d.changedPaths) + When(!o.diffClean, DiffCheckRed)
               + When(o.definitions.None?, SensorConfigFailed)
               + When(o.definitions.Some? && o.definitions.value != c.sensorHash, SensorDefinitionChanged)
  {
    hide DiffSnapshots, When, Safe, PathFailures;
  }

  /** Everything that is judged before the sensors run. */
  method JudgeBefore(pol: Policy, c: Contract, o: Observations, current: Snapshot) returns (failures: set<Failure>)
    ensures failures == BeforeSensors(pol, c, o, current)
  {
    hide *;
    BeforeIs(pol, c, o, current);
    failures := {};
    var delta := DiffSnapshots(c.baseline, current);
    NoteWhen(failures, delta.rootChanged, RootMoved);
    if delta.rootChanged {
      failures := failures + {RootMoved};
    }
    NoteWhen(failures, delta.headChanged, HeadMoved);
    if delta.headChanged {
      failures := failures + {HeadMoved};
    }
    NoteWhen(failures, delta.metadataChanged, MetadataMoved);
    if delta.metadataChanged {
      failures := failures + {MetadataMoved};
    }
    NoteWhen(failures, !Safe(current), UnsafeSnapshot);
    if !Safe(current) {
      failures := failures + {UnsafeSnapshot};
    }
    NoteWhen(failures, delta.changedPaths == {}, NothingChanged);
    if delta.changedPaths == {} {
      failures := failures + {NothingChanged};
    }
    var judged := JudgePaths(pol, c, delta.changedPaths);
    failures := failures + judged;
    NoteWhen(failures, !o.diffClean, DiffCheckRed);
    if !o.diffClean {
      failures := failures + {DiffCheckRed};
    }
    NoteWhen(failures, o.definitions.None?, SensorConfigFailed);
    ghost var judgedSo := failures + When(o.definitions.None?, SensorConfigFailed);
    NoteWhen(judgedSo, o.definitions.Some? && o.definitions.value != c.sensorHash, SensorDefinitionChanged);
    if o.definitions.None? {
      failures := failures + {SensorConfigFailed};
    } else if o.definitions.value != c.sensorHash {
      failures := failures + {SensorDefinitionChanged};
    }
  }

  /** Runs the sensors and judges what they left behind. */
  method JudgeAfter(pol: Policy, c: Contract, o: Observations, current: Snapshot)
    returns (failures: set<Failure>, changedPaths: set<Path>)
    ensures failures == AfterSensors(pol, c, o, current) && changedPaths == PathsAfterSensors(c, o, current)
  {
    hide PathFailures, Safe, DiffSnapshots, GateOk;
    failures, changedPaths := {}, DiffSnapshots(c.baseline, current).changedPaths;
    if !GateOk(o.evidence, c.sensorIds) {
      failures := failures + {SensorRed};
    }
    if o.after.None? {
      failures := failures + {AfterSensorsUnconfirmed};
      return;
    }
    if !DiffSnapshots(current, o.after.value).Quiet() {
      failures := failures + {SensorMutation};
      changedPaths := DiffSnapshots(c.baseline, o.after.value).changedPaths;
    }
    if !Safe(o.after.value) {
      failures := failures + {UnsafeSnapshot};
    }
    var judged := JudgePaths(pol, c, changedPaths);
    failures := failures + judged;
    if !o.afterTopology {
      failures := failures + {AfterSensorsUnconfirmed};
    }
  }

  method RecordRed(files: FlowFiles, k: Key, attempt: Attempt) returns (answer: Answer)
    modifies files`flows
    ensures (files.flows, answer)
            == Answered(Apply(files.pol, old(files.flows), Append(k, attempt)), old(files.flows),
                Rejected(attempt.failures))
  {
    hide Apply;
    var error := files.AppendAttempt(k, attempt);
    answer := if error.Some? then Failed(error.value) else Rejected(attempt.failures);
  }

  method FinishFlow(files: FlowFiles, k: Key, o: Observations, attemptId: string) returns (answer: Answer)
    modifies files`flows
    ensures (files.flows, answer) == FinishCall(files.pol, old(files.flows), k, o, attemptId)
  {
    hide Apply, Consistent, BeforeSensors, AfterSensors, TerminalOk, DiffSnapshots, Safe, PathFailures, ReceiptOf,
         PathsAfterSensors;
    var pol := files.pol;
    if k !in files.flows {
      return Failed(NotFound);
    }
    var rec := files.flows[k];
    if !Consistent(pol, k, rec) {
      return Failed(Corrupt);
    }
    if rec.receipt.Some? {
      return Finished(o.projected, true);
    }
    if !rec.Active() {
      return Failed(Terminal);
    }
    var c := rec.contract;
    if !o.topology {
      answer := RecordRed(files, k, Attempt(attemptId, {TopologyFailed}, {}, []));
      return;
    }
    if o.current.None? {
      answer := RecordRed(files, k, Attempt(attemptId, {ScanFailed}, {}, []));
      return;
    }
    var current := o.current.value;
    var changedPaths := DiffSnapshots(c.baseline, current).changedPaths;
    var evidence := [];
    var failures := JudgeBefore(pol, c, o, current);
    if failures == {} {
      evidence := o.evidence;
      failures, changedPaths := JudgeAfter(pol, c, o, current);
    }
    if failures != {} {
      answer := RecordRed(files, k, Attempt(attemptId, failures, changedPaths, evidence));
      return;
    }
    var terminal, settled := o.terminal, false;
    if terminal.Some? && DiffSnapshots(current, terminal.value).Quiet() && Safe(terminal.value) {
      changedPaths := DiffSnapshots(c.baseline, terminal.value).changedPaths;
      var judged := JudgePaths(pol, c, changedPaths);
      settled := judged == {} && o.terminalClean && o.terminalTopology;
    }
    assert settled == TerminalOk(pol, c, o, current) by { TerminalIs(pol, c, o, current); }
    if !settled {
      answer := RecordRed(files, k, Attempt(attemptId, {TerminalFailed}, changedPaths, evidence));
      return;
    }
    var error := files.PutReceipt(k, ReceiptOf(c, o, terminal.value));
    answer := if error.Some? then Failed(error.value) else Finished(o.projected, false);
  }

  lemma TerminalIs(pol: Policy, c: Contract, o: Observations, current: Snapshot)
    ensures TerminalOk(pol, c, o, current)
            <==> && o.terminal.Some? && DiffSnapshots(current, o.terminal.value).Quiet() && Safe(o.terminal.value)
                 && PathFailures(pol, c, DiffSnapshots(c.baseline, o.terminal.value).changedPaths) == {}
                 && o.terminalClean && o.terminalTopology
  {
    hide PathFailures, Safe, DiffSnapshots;
  }

  // ---------- exactly when a receipt is left ----------

  // The store asks more than the gate: every sensor green, in the order of the contract, and canonical paths.
  predicate Storable(pol: Policy, c: Contract, r: Receipt) {
    Ids(r.evidence) == c.sensorIds && AllGreen(r.evidence) && AllCanonical(pol, r.changedPaths)
  }

  /**
   An active flow gets a receipt exactly when it is justified and the receipt can be stored. Then nothing else changes;
   a justified flow whose receipt cannot be stored is left as it was.
   */
  lemma FinishExactly(pol: Policy, st: Store, k: Key, o: Observations, attemptId: string)
    requires k in st && Consistent(pol, k, st[k]) && st[k].Active()
    ensures var c := st[k].contract; var (after, answer) := FinishCall(pol, st, k, o, attemptId);
            && k in after
            && (after[k].receipt.Some? <==> Justified(pol, c, o) && Storable(pol, c, ReceiptOf(c, o, o.terminal.value)))
            && (after[k].receipt.Some? ==> after == st[k := st[k].(receipt := Some(ReceiptOf(c, o, o.terminal.value)))]
                                           && answer == Finished(o.projected, false))
            && (after[k].receipt.None? && Justified(pol, c, o) ==> after == st && answer == Failed(Corrupt))
  {
    var c := st[k].contract;
    GreenExactly(pol, c, o);
    if Assess(pol, c, o).Green? {
      ReceiptSound(pol, c, o);
      hide Assess, Justified;
      ReceiptStored(pol, st, k, Assess(pol, c, o).receipt);
    } else {
      hide Assess, Justified, Consistent, ValidAttempt, ReceiptOf;
    }
  }

  lemma ReceiptStored(pol: Policy, st: Store, k: Key, r: Receipt)
    requires k in st && Consistent(pol, k, st[k]) && st[k].Active()
    requires r.flow == k.flow && r.reason == st[k].contract.reason && r.allowedPaths == st[k].contract.allowedPaths
    requires r.sensorIds == st[k].contract.sensorIds && r.baselineHead == st[k].contract.baseline.head
    requires r.changedPaths != {} && forall p | p in r.changedPaths :: PathAllowed(p, st[k].contract.allowedPaths)
    ensures Apply(pol, st, WriteReceipt(k, r))
            == if Storable(pol, st[k].contract, r) then Done(st[k := st[k].(receipt := Some(r))]) else Thrown(Corrupt)
  {
    hide PathAllowed;
  }

  /** A red sensor of warning severity passes the gate, and then nothing at all is recorded. */
  lemma WarningIsLost(pol: Policy, st: Store, k: Key, o: Observations, attemptId: string)
    requires k in st && Consistent(pol, k, st[k]) && st[k].Active() && Justified(pol, st[k].contract, o)
    requires !AllGreen(o.evidence)
    ensures FinishCall(pol, st, k, o, attemptId) == (st, Failed(Corrupt))
  {
    var c := st[k].contract;
    GreenExactly(pol, c, o);
    ReceiptSound(pol, c, o);
    hide Assess, Justified;
    ReceiptStored(pol, st, k, Assess(pol, c, o).receipt);
  }

  // ---------- every receipt of every run ----------

  // In a run only finishing writes receipts.
  datatype Event = Finish(key: Key, seen: Observations, attemptId: string) | Other(call: Call)

  predicate Proper(e: Event) {
    e.Other? ==> !e.call.WriteReceipt?
  }

  function Step(pol: Policy, st: Store, e: Event): Store {
    match e
    case Finish(k, o, id) => FinishCall(pol, st, k, o, id).0
    case Other(call) => Next(pol, st, call)
  }

  function History(pol: Policy, events: seq<Event>): Store {
    if events == [] then map[] else Step(pol, History(pol, events[..|events| - 1]), events[|events| - 1])
  }

  ghost predicate VouchedBy(pol: Policy, rec: Record, k: Key, e: Event) {
    && e.Finish? && e.key == k && Justified(pol, rec.contract, e.seen)
    && rec.receipt == Some(ReceiptOf(rec.contract, e.seen, e.seen.terminal.value))
  }

  ghost predicate Vouched(pol: Policy, events: seq<Event>, st: Store) {
    forall k | k in st && st[k].receipt.Some? :: exists i :: 0 <= i < |events| && VouchedBy(pol, st[k], k, events[i])
  }

  lemma FinishIsCall(pol: Policy, st: Store, k: Key, o: Observations, id: string)
    ensures FinishCall(pol, st, k, o, id).0 == st
            || exists call: Call :: (call.Append? || call.WriteReceipt?) && call.key == k
                                    && FinishCall(pol, st, k, o, id).0 == Next(pol, st, call)
  {
    hide Assess, Consistent, Apply;
    if k in st && Consistent(pol, k, st[k]) && st[k].Active() {
      match Assess(pol, st[k].contract, o)
      case Red(failures, paths, evidence) =>
        var call := Append(k, Attempt(id, failures, paths, evidence));
        assert FinishCall(pol, st, k, o, id).0 == Next(pol, st, call);
      case Green(receipt) =>
        var call := WriteReceipt(k, receipt);
        assert FinishCall(pol, st, k, o, id).0 == Next(pol, st, call);
    }
  }

  lemma StepKeeps(pol: Policy, st: Store, e: Event)
    requires Sound(pol, st)
    ensures Sound(pol, Step(pol, st, e)) && StoreExtends(st, Step(pol, st, e))
  {
    hide Sound, StoreExtends, FinishCall, Next;
    match e
    case Finish(k, o, id) =>
      FinishIsCall(pol, st, k, o, id);
      StoreExtendsSelf(pol, st);
      if FinishCall(pol, st, k, o, id).0 != st {
        var call: Call :| (call.Append? || call.WriteReceipt?) && call.key == k
                          && FinishCall(pol, st, k, o, id).0 == Next(pol, st, call);
        NextKeeps(pol, st, call);
      }
    case Other(call) => NextKeeps(pol, st, call);
  }

  // A step leaves receipts as they are, except for the one its finishing writes.
  lemma StepReceipts(pol: Policy, st: Store, e: Event, k: Key)
    requires Sound(pol, st) && Proper(e) && k in Step(pol, st, e) && Step(pol, st, e)[k].receipt.Some?
    ensures (k in st && st[k].receipt == Step(pol, st, e)[k].receipt && st[k].contract == Step(pol, st, e)[k].contract)
            || VouchedBy(pol, Step(pol, st, e)[k], k, e)
  {
    hide Justified, Storable, ReceiptOf;
    if k in st && st[k].receipt.Some? {
      StepKeeps(pol, st, e);
      hide Step, Sound;
    } else if e.Finish? {
      StepKeeps(pol, st, e);
      hide Sound;
      FinishReceipts(pol, st, e, k);
    } else {
      hide Consistent, ValidContract, ValidReservation;
    }
  }

  lemma FinishReceipts(pol: Policy, st: Store, e: Event, k: Key)
    requires e.Finish? && k in Step(pol, st, e) && Step(pol, st, e)[k].receipt.Some?
    requires k in st ==> st[k].receipt.None? && st[k].contract == Step(pol, st, e)[k].contract
    ensures VouchedBy(pol, Step(pol, st, e)[k], k, e)
  {
    hide Justified, Storable, ReceiptOf, Assess;
    FinishIsCall(pol, st, e.key, e.seen, e.attemptId);
    if e.key in st && Consistent(pol, e.key, st[e.key]) && st[e.key].Active() {
      FinishExactly(pol, st, e.key, e.seen, e.attemptId);
      if k == e.key {
        hide FinishCall;
      } else {
        hide Consistent, TxOn, ValidAttempt;
      }
    }
  }

  /** In every run of finishing and other calls, each receipt is the one of a finishing that justified it. */
  lemma {:induction false} ReceiptsJustified(pol: Policy, events: seq<Event>)
    requires forall e | e in events :: Proper(e)
    ensures Sound(pol, History(pol, events)) && Vouched(pol, events, History(pol, events))
  {
    if events != [] {
      var n := |events| - 1;
      var st, e := History(pol, events[..n]), events[n];
      ReceiptsJustified(pol, events[..n]);
      StepKeeps(pol, st, e);
      hide Sound, Step, Proper, VouchedBy;
      var after := History(pol, events);
      forall k | k in after && after[k].receipt.Some?
        ensures exists i :: 0 <= i < |events| && VouchedBy(pol, after[k], k, events[i])
      {
        StepReceipts(pol, st, e, k);
        if !VouchedBy(pol, after[k], k, e) {
          var i :| 0 <= i < n && VouchedBy(pol, st[k], k, events[..n][i]);
          VouchedSame(pol, st[k], after[k], k, events[i]);
        } else {
          assert events[n] == e;
        }
      }
    }
  }

  lemma VouchedSame(pol: Policy, before: Record, after: Record, k: Key, e: Event)
    requires VouchedBy(pol, before, k, e) && after.receipt == before.receipt && after.contract == before.contract
    ensures VouchedBy(pol, after, k, e)
  {
    hide Justified;
  }
}
