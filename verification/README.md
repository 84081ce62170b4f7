# A verified model of the vault's session machinery

This project models, in Dafny, the parts of wendkeep that must not lose or invent anything: the registry of active
contexts and its cleanup protocol, the graph of Codex subagents, the FLOW lifecycle from contract to receipt or
promoted change, the repair of session notes, and the byte budget of the injected memory. For each of them the model
follows the source branch by branch, and the theorems speak about every input, every run or every reachable state.

Check it with `dafny verify dfyconfig.toml` (Dafny 4.11).

## How it is built

Where the source changes state step by step, so does the model: `ContextStore.SessionRegistry`,
`GraphScan.SubagentScan`, `FlowStore.FlowFiles`, `FlowVault.Vault` and `TreeWalk.TreeScan` are classes whose methods
update fields in loops and transactions, and the parsers and text transformations are methods with loops. Each method
is proved equal to a specification function (`MutateTx`, `Result`, `FinishCall`, `Drive`, `SeeAll`, `Merge`, `Upsert`,
`Injected`, ...), and the theorems are about those functions.

- **Active contexts** (`Context*.dfy`). A registry value holds contexts, reservations, tombstones and sessions. The five
  operations are transactions that throw and leave it unchanged or commit, past the commit guards of the registry file.
  A run is any list of calls, each with an arbitrary set of living owner processes.
- **Subagent graph** (`Usage`, `Transcript`, `Graph*.dfy`). Transcripts are decoded line by line from arbitrary chunks;
  a worklist follows started edges under node, day, candidate and byte limits, a clock and a cache. Reachability is
  defined independently of the worklist, by chains of started edges.
- **FLOW** (`Flow*.dfy`, `GitStatus`, `TreeWalk`, `TreeExact`). Finishing is one call on the store. Promotion is a
  process of sixteen stages whose steps interleave with other processes, with crashes at any point and with other store
  calls; `FlowVault` runs the same promotion as ordinary code and is proved to do what the undisturbed steps do.
- **Session notes** (`Frontmatter*.dfy`, `Derived*.dfy`). The stacked front matter is text throughout; the derived
  sections are lists of lines.
- **First line and injection** (`Reader`, `Injection*.dfy`). The bounded reader meets every pattern of short reads; the
  eviction ladder is measured in UTF-8 bytes, from the memory files and their guard to the capped block.

## What the proofs found

Some expected laws hold under a condition only. The condition is proved exact, or a lemma gives the family of inputs
that violates it.

- A context's project is not part of its key. An updater that returns another project, called under an identity of that
  project, moves the context to it (`ProjectCanMove`); with the exported updaters it is fixed (`ProjectFixed`).
- An empty attempt token passes the check of a phase update whoever holds the reservation (`PhaseExactly`).
- A tombstone written without a token cannot be written again under one unless the reservation holds that token: the
  commit guard refuses what the mark itself lets through (`MarkExactly`).
- A reservation that closes a session of another cleanup is refused by the commit guard only (`ReserveExactly`).
- A token longer than 160 characters is stored cut, so its own holder is fenced off (`OwnTokenExactly`).
- The tombstoning operation can mutate its worktree back to life (`OwnerRevives`), hence the premise of `Permanence`.
  Exactly its permitted mutations that come out active do so (`StandingExactly`, `PermanenceExactly`).
- A red sensor of warning severity passes the gate of `finishFlow`, but the store accepts green evidence only: the call
  fails and records neither receipt nor attempt (`WarningIsLost`).
- The comment at packages/vault/src/vault-path-safety.mjs:272 calls a leftover temporary file recoverable. For a
  promotion it is not: a process that dies between creating and renaming it leaves an artifact that every retry refuses
  (`RetryExactly`, `SomeCrashBlocks`). After a crash at any other point the retry completes (`RetryCompletes`).
- Emptiness of a FLOW is looked at before the sensors only; the later snapshots make that enough (`GreenExactly`).
- Keys of front matter may contain dashes. A later key that opens with three of them ends the fused block early; the
  repair then fails its own check and the note is left alone (`OneBlockExactly`, `RepairExactly`).
- A heading directly below a derived heading is swallowed by the section's own marker. Exactly then merging does not
  close the section for the detector (`ClosesExactly`), and the whole repair leaves something missing exactly when a
  section that receives links is in that state (`RepairExactly`).
- The shown token total falls back to the parts when no total is stored, so it is not additive on arbitrary usages
  (`TotalsAdd`); on everything the parser stores it is (`NormalizeSound`, `UsageConserved`).
- A lone carriage return is an empty first line at the end of a file but an empty file before a line feed
  (`LoneCarriageReturn`).
- The guard of the version 2 memory drops both layers but keeps revision and state hash, which an invalid
  SHARED_MEMORY.md may make as long as it likes. Beyond the guard the output always fits exactly while they are short
  enough (`VaultExactly`); a file with one state hash of 24576 characters breaks the budget for every backlog
  (`LongHashExactly`). With a valid or absent SHARED_MEMORY.md it always fits (`ValidVaultFits`). The 513 bytes of
  `BudgetHolds` are exact: one byte less, and some backlog overflows (`BudgetExactly`).
- Edge keys of the subagent graph are joined by a text that an id may itself contain. For exactly the pairs of parents
  where one goes on after the other as a key would (`SharedKeyExactly`), a child can be lost without a diagnostic and
  the verdict is still complete (`ClashExactly`). Ids without NUL are safe (`NulFreeApart`).

## Model

| member | source | states |
|---|---|---|
| ContextInvariants.ContextKeyInjective | hooks/active-context-store.mjs:139-142 | Contexts with valid ids share a registry key only if repository, worktree and work session all agree |
| ContextInvariants.FindExact | hooks/obsidian-common.mjs:325-349 | The lookup with the repository and then without it finds exactly the one claim of the worktree, in whatever repository it was written; the composite key alone decides whether the repository owns it |
| ContextInvariants.ClaimWritten | hooks/active-context-store.mjs:437-494 | Writing a reservation or tombstone keeps one claim a worktree, provided it replaces the only one there |
| ContextInvariants.RunKeeps | hooks/active-context-store.mjs:246-736 | Every run of the five operations, with any arguments and any set of living owners, keeps the registry invariant |
| ContextInvariants.RunFromEmpty | hooks/active-context-store.mjs:246-736 | From an uninitialised registry: each context sits under the key of its own identity, a worktree never has two reservations or two tombstones (even across repositories), a reservation beside a tombstone belongs to the same operation, and the global revision is the sum of all context revisions |
| ContextSafety.ReservationStep | hooks/active-context-store.mjs:386-404 | One step changes or removes a reservation only if it is an authorised call of the reserving operation |
| ContextSafety.TombstoneStep | hooks/active-context-store.mjs:602-735 | The tombstones of a worktree change only by a terminal mark for that worktree, whose operation and token may release its reservation, and only when no context is active there |
| ContextSafety.Fencing | hooks/active-context-store.mjs:499-550 | While one attempt holds a reservation, no call with another non-empty token changes its phase, releases it or writes its tombstone, in any run |
| ContextSafety.Handover | hooks/active-context-store.mjs:386-404 | If an attempt loses a reservation during a run, there is a step at which its holder released it or it had failed, was finalized, or its owner process was dead |
| ContextRuns.RevisionsRise | hooks/active-context-store.mjs:279-322 | Along any run revisions never fall, contexts are never dropped, and every mutation leaves the context with a strictly higher revision |
| ContextRuns.OneWinner | hooks/active-context-store.mjs:279-285 | Of all calls in a run that expect one revision of a context, at most one commits |
| ContextRuns.NoAba | hooks/active-context-store.mjs:405-436 | A reservation with a non-empty snapshot on an active worktree commits only if that snapshot is exactly what is active now and no context in it was mutated since it was taken, even back to equal fields |
| ContextRuns.Freeze | hooks/active-context-store.mjs:267-276 | However many calls other operations make, a reserved worktree keeps its reservation, its contexts and its sessions as they were |
| ContextRuns.TombstoneBirth | hooks/active-context-store.mjs:602-735 | A tombstone is written or rewritten only on a worktree without an active context |
| ContextRuns.Permanence | hooks/active-context-store.mjs:257-266 | In every run without a further mutation by the tombstoning operation: the tombstone keeps operation, subject hash and subject, the worktree stays without active contexts, and no other operation reserves it |
| ContextEdges.ProjectFixed | hooks/active-context-store.mjs:302-311 | With the exported updaters a context keeps its project through every run |
| ContextEdges.MutateExactly | hooks/active-context-store.mjs:253-324 | A mutation commits exactly under its own guards (valid ids, no claim of another operation on the worktree, expected revision, identity kept), and then writes just that context: the commit guards never refuse what these let through |
| ContextEdges.ProjectStep | hooks/active-context-store.mjs:302-322 | A step changes the project of a context exactly when a permitted mutation of its key comes under an identity of another project, and only an updater that is not exported can do that |
| ContextEdges.ProjectCanMove | hooks/active-context-store.mjs:298-311 | The project is not part of the key: wherever no other operation claims the worktree, an updater that returns another project moves an existing context to it |
| ContextEdges.PhaseExactly | hooks/active-context-store.mjs:540-550 | A phase update commits exactly when the operation holds the reservation of that repository and worktree and the token is the stored one or empty |
| ContextEdges.OwnTokenExactly | hooks/active-context-store.mjs:488 | A holder can go on with the token it reserved under exactly when storing did not cut it at 160 characters |
| ContextEdges.OwnerRevives | hooks/active-context-store.mjs:257-266 | The tombstoning operation itself revives its worktree by any call with an exported updater, for a new context or one of the same project |
| ContextEdges.StandingExactly | hooks/active-context-store.mjs:257-322 | One step ends the standing of a tombstone exactly when it is a permitted mutation by the tombstoning operation whose context comes out active |
| ContextEdges.PermanenceExactly | hooks/active-context-store.mjs:246-736 | A tombstone stands at every point of a run exactly when no call of the run is such a mutation |
| ContextGuards.ReserveExactly | hooks/active-context-store.mjs:355-494 | A cleanup is reserved exactly when tombstone and reservation of the worktree are its own to take over, no context of another repository is active there, its targets are exactly the active contexts, their changes and, if given, their state (or it may aim at closed ones and none is active), and every session it closes may be closed and belongs to no other cleanup; then exactly those sessions are closed and exactly that reservation is written, field by field |
| ContextGuards.StoredExactly | hooks/active-context-store.mjs:466-492 | A stored subject has the ids and targets as they are and every text up to its own limit, and nothing else does |
| ContextWrites.MutateWrites | hooks/active-context-store.mjs:286-324 | A permitted mutation writes one context: one revision further, under the ids of the identity, with its branch and head where it gives them, and of change and delivery only the one that the updater sets |
| ContextWrites.PhaseWrites | hooks/active-context-store.mjs:551-558 | A permitted phase update writes nothing but the phase |
| ContextWrites.ReleaseExactly | hooks/active-context-store.mjs:497-525 | A release always commits and removes exactly the reservation of that operation and token that is asked for, or the only one it holds |
| ContextWrites.MarkExactly | hooks/active-context-store.mjs:563-736 | A tombstone is written exactly on an idle worktree, by the one operation that claims it, under its reservation or where none is needed; again only for the same subject and hash as they are stored, by the attempt that wrote it or now holds the reservation; then exactly that tombstone is written |
| ContextStore.Find | hooks/obsidian-common.mjs:325-349 | The two chained lookups return the claim that the specification gives |
| ContextStore.CloseAll | hooks/active-context-store.mjs:437-464 | The loop over the sessions closes exactly the active sessions of the work session or path and leaves the others alone |
| ContextStore.YieldsKeeps | hooks/obsidian-common.mjs:465-484 | Each method is one transaction: it either fails and leaves the registry unchanged, or commits and keeps the invariant |
| ContextStore.SessionRegistry.constructor | hooks/obsidian-common.mjs:270-289 | A new registry is empty and satisfies the invariant |
| ContextStore.SessionRegistry.WriteBack | hooks/obsidian-common.mjs:357-439 | The commit guards let a draft through exactly when it breaks no reservation and no tombstone of another operation |
| ContextStore.SessionRegistry.MutateActiveContext | hooks/active-context-store.mjs:246-330 | Tombstone and reservation guards, compare-and-set on the revision, identity check, then one context with the next revision; otherwise the registry is unchanged |
| ContextStore.SessionRegistry.ReserveActiveContextCleanup | hooks/active-context-store.mjs:332-495 | Adoption of a tombstone, retry of the same operation, take-over of a finished or dead attempt, snapshot and candidate checks, and the written reservation |
| ContextStore.SessionRegistry.UpdateActiveContextCleanupPhase | hooks/active-context-store.mjs:527-561 | Only phase and time of the matching reservation change |
| ContextStore.SessionRegistry.ReleaseActiveContextCleanup | hooks/active-context-store.mjs:497-525 | The matching reservation is removed, nothing else |
| ContextStore.SessionRegistry.FindOwned | hooks/active-context-store.mjs:602-623 | The reservation under the subject's own key, else that of its worktree in any repository |
| ContextStore.SessionRegistry.MarkActiveContextCleanupTerminal | hooks/active-context-store.mjs:563-736 | The tombstone of the subject is written or adopted, on an idle worktree, by an operation and token that fit reservation and standing tombstone; contexts, sessions and the reservation stay |
| ContextStore.SessionRegistry.ResolveActiveContext | hooks/active-context-store.mjs:215-244 | With a work session the answer is the one active context of that identity or that there is none; ambiguity needs a query without work session and session |
| Usage.TotalsAdd | hooks/codex-subagent-graph.mjs:43-52 | The shown total of a sum of usages is the sum of the shown totals exactly when both are sound or neither has a total |
| Usage.NormalizeSound | packages/integrations/src/transcript-usage.mjs:13-26 | A normalised usage is sound: fresh and cached input add up to the reported input, cached is what was reported unless that exceeds the input, and the total is the reported one or the sum of the parts |
| Usage.KeyExact | hooks/codex-subagent-graph.mjs:337 | For names without NUL, only rows of one provider, model and effort share a key |
| Usage.RegroupExact | hooks/codex-subagent-graph.mjs:337-347 | Grouping gives one row a key, holding every tally of that key, and keeps the total |
| Usage.AtDistinct | hooks/codex-subagent-graph.mjs:338-347 | Where keys are distinct, the row of a key is all there is of that key |
| Usage.TwoLevels | hooks/codex-subagent-graph.mjs:464-514 | Grouping each transcript and then all groups equals grouping every call at once |
| Transcript.DrainCarry | hooks/codex-subagent-graph.mjs:360-365 | Every complete line leaves the carry buffer in order, and the lines still to come are unchanged whatever text follows |
| Transcript.ParseRolloutStream | hooks/codex-subagent-graph.mjs:352-401 | The summary depends on the whole text only, wherever the chunks are cut; reading fails exactly when the clock stops it or a read breaks |
| Transcript.LinesReadBack | hooks/codex-subagent-graph.mjs:352-375 | Lines are read back whatever their ends, LF or CR LF |
| Transcript.ParsedUsage | hooks/codex-subagent-graph.mjs:324-349 | The rows of a transcript group exactly its calls, its totals are their sum, and provider and model are never empty |
| Transcript.ParsedEdges | hooks/codex-subagent-graph.mjs:304-308 | An edge is in the summary exactly when some non-empty line decodes to that activity |
| Transcript.EdgesInOrder | hooks/codex-subagent-graph.mjs:304-308 | Edges stand in the order of their lines |
| Transcript.ParsedMalformed | hooks/codex-subagent-graph.mjs:276-281 | Malformed lines are counted one by one |
| Transcript.ParsedTools | hooks/codex-subagent-graph.mjs:309-322 | A tool is reported exactly when some line calls it |
| Transcript.AggregateAgents | hooks/codex-subagent-graph.mjs:464-514 | The aggregate holds the regrouped rows, the summed calls and usage, and the union of the tools of all agents |
| Transcript.UsageConserved | hooks/codex-subagent-graph.mjs:324-514 | From transcripts to aggregate no call and no token is lost or counted twice, and the shown tokens add up |
| Transcript.RowsNamed | hooks/codex-subagent-graph.mjs:474-480 | Every row of the aggregate names a provider and a model, if need be as unknown |
| Transcript.ToolsConserved | hooks/codex-subagent-graph.mjs:464-514 | A tool is in the aggregate exactly when some line of some transcript calls it |
| GraphSteps.ReadSummaryQuiet | hooks/codex-subagent-graph.mjs:605-638 | A transcript yields its summary or leaves a diagnostic or an abort, and touches nothing of the worklist |
| GraphSteps.ValidateQuiet | hooks/codex-subagent-graph.mjs:765-780 | If all candidates fail validation there is a diagnostic |
| GraphSteps.EnqueueAllGrows | hooks/codex-subagent-graph.mjs:570-579 | Queueing appends one entry for each joined key that was not queued yet, and the key of every started edge is queued afterwards |
| GraphInvariant.TurnDoes | hooks/codex-subagent-graph.mjs:748-843 | One turn skips a child that is known, or refuses it with a diagnostic, or admits it with an accepted parent and within the node limit |
| GraphReads.ReadChunksExactly | hooks/codex-subagent-graph.mjs:539-548 | A file is read exactly when no check of the clock before any of its chunks and at its end is late; the first late one ends the scan |
| GraphReads.ReadExactly | hooks/codex-subagent-graph.mjs:605-638 | A transcript is read exactly when its valid cache entry is there or it fits the byte budget, is read in time and parses; counters, output cache and diagnostics for each outcome |
| GraphAdmission.WalkDayExactly | hooks/codex-subagent-graph.mjs:724-741 | One day gives all its files of the id that are no roots, or ends the walk exactly where the candidates run out |
| GraphAdmission.LocateExactly | hooks/codex-subagent-graph.mjs:684-743 | Direct candidates are taken as they are; without any, and unless a limit is noted, exactly the files of the child on the fallback days that are no roots |
| GraphAdmission.ValidateExactly | hooks/codex-subagent-graph.mjs:765-779 | Exactly the candidates that are files of the child are kept and remembered as they were read; every other one is diagnosed |
| GraphAdmission.ValidateOrder | hooks/codex-subagent-graph.mjs:765-792 | The candidate that is taken is the first file of the child, and what is noted is the code of a bad child file |
| GraphAdmission.DigestsExactly | hooks/codex-subagent-graph.mjs:781-786 | In time exactly the digests of all candidates that have one are compared |
| GraphAdmission.ChooseExactly | hooks/codex-subagent-graph.mjs:781-792 | Several candidates are taken for one file exactly when some digest was taken and no two differ, unless the clock cuts in |
| GraphAdmission.AdmitExactly | hooks/codex-subagent-graph.mjs:792-842 | A located child joins the agents exactly when it is a subagent, its session is empty, canonical or a root, its parent is accepted and vouched for by the edge, there is room and its transcript is read; with which code each refusal is noted, and with which depth it joins |
| GraphEvidence.AddRootExactly | hooks/codex-subagent-graph.mjs:641-671 | A path becomes a root exactly when its metadata are those of a top-level rollout, its id is new and there is room, even if its transcript cannot be read; with which code each other path is noted |
| GraphEvidence.TurnExactly | hooks/codex-subagent-graph.mjs:748-843 | One turn admits exactly one agent exactly when the child is new, the search settles on a file, and that file belongs, finds room and can be read; else none |
| GraphInvariant.QueueingKeeps | hooks/codex-subagent-graph.mjs:839-842 | Queueing the edges of an accepted transcript keeps the forest, and everything queued still springs from a signal or an accepted transcript |
| GraphLoop.LoopKeeps | hooks/codex-subagent-graph.mjs:746-843 | The loop terminates (by edges not yet queued, then queue length), keeps the invariant, and ends with an empty queue or aborted |
| GraphKeys.SharedKeyExactly | hooks/codex-subagent-graph.mjs:574 | Two parents can share a key for different children exactly when one of them goes on after the other as a key would |
| GraphKeys.NulFreeApart | hooks/codex-subagent-graph.mjs:574 | Parents without NUL never share a key for different children |
| GraphClosure.BeginKeeps | hooks/codex-subagent-graph.mjs:640-682 | After roots and signals the invariant holds, every signal is queued, and no root is left out without a diagnostic |
| GraphTheorems.ChainAccepted | hooks/codex-subagent-graph.mjs:746-843 | Where equal keys mean equal children, a chain of started edges from a root or signal never leaves the accepted ids of a complete scan |
| GraphTheorems.AgentChain | hooks/codex-subagent-graph.mjs:746-843 | Every agent, of any scan, is reached by such a chain |
| GraphTheorems.ExactClosure | hooks/codex-subagent-graph.mjs:877-885 | Unless the verdict is degraded, and where no two parents can share a key for different children, the agents are exactly the non-root ids reachable from roots and signals, every root was read, and the verdict is none exactly when there is no such id |
| GraphClash.ClashExactly | hooks/codex-subagent-graph.mjs:570-579 | For exactly the pairs of parents that can share a key there is a world with no other parents whose scan is not degraded and still misses a reachable child |
| GraphTheorems.AgentDescent | hooks/codex-subagent-graph.mjs:808-841 | Every agent's parent chain ends at a root; without declared depths its depth is the length of that chain |
| GraphTheorems.LimitsHold | hooks/codex-subagent-graph.mjs:616-621 | In every scan, degraded or not: ids accepted once and never as a root, roots and agents within the node limit, live uncached bytes and fallback candidates within their limits, every agent below a root |
| GraphEvidence.AgentsBelong | hooks/codex-subagent-graph.mjs:792-829 | In every scan, degraded or not, each agent is the subagent file of its id with a session that is empty, canonical or a root, and some started edge that was met names it, together with its parent or as a signal that names none |
| GraphEvidence.RecheckExactly | hooks/codex-subagent-graph.mjs:847-852 | The last look adds no diagnostic exactly when every used file is as it was read, and one if time is up |
| GraphEvidence.UnchangedFiles | hooks/codex-subagent-graph.mjs:847-885 | Unless the verdict is degraded, every root and agent was at the end the file that was read |
| GraphCache.OfflineRead | hooks/codex-subagent-graph.mjs:605-638 | Offline, a transcript is its valid cache entry without a diagnostic, or its content with the diagnostic of that content |
| GraphCache.ReadSummarySim | hooks/codex-subagent-graph.mjs:605-638 | With and without the cache one transcript gives the same summary, and diagnostics differ exactly by the one a malformed hit skips |
| GraphCache.CacheTransparent | hooks/codex-subagent-graph.mjs:605-638 | Offline with a faithful cache the whole graph equals that of a scan without one; diagnostics and verdict do too when no cached summary has malformed lines |
| GraphUsage.ScanUsage | hooks/codex-subagent-graph.mjs:837-846 | The aggregate over the agents of a scan regroups exactly the calls of the accepted transcripts, each transcript once, with their calls, usage and shown tokens summed |
| GraphScan.SubagentScan.constructor | hooks/codex-subagent-graph.mjs:530-595 | A fresh scan has nothing queued, accepted or diagnosed |
| GraphScan.SubagentScan.Diagnose | hooks/codex-subagent-graph.mjs:534-537 | A diagnostic is added and nothing else changes |
| GraphScan.SubagentScan.Abort | hooks/codex-subagent-graph.mjs:542-543 | An abort is always diagnosed |
| GraphScan.SubagentScan.ShouldContinue | hooks/codex-subagent-graph.mjs:539-547 | Live scans stop, with a diagnostic, once the deadline has passed |
| GraphScan.SubagentScan.EnqueueEdge | hooks/codex-subagent-graph.mjs:570-579 | The queue and the set of queued keys after one edge |
| GraphScan.SubagentScan.EnqueueEdges | hooks/codex-subagent-graph.mjs:670 | The queue and the set of queued keys after a list of edges |
| GraphScan.SubagentScan.ReadFile | hooks/codex-subagent-graph.mjs:355-366 | One check of the clock before every chunk and the end of the file |
| GraphScan.SubagentScan.ParseTranscript | hooks/codex-subagent-graph.mjs:622-637 | A parsed transcript is counted and cached, and malformed lines or a failed read are diagnosed |
| GraphScan.SubagentScan.ScanWithCache | hooks/codex-subagent-graph.mjs:605-638 | Cache hit, invalid entry, byte budget or parse, as specified |
| GraphScan.SubagentScan.KeepRoot | hooks/codex-subagent-graph.mjs:665-670 | Records a root and queues its edges |
| GraphScan.SubagentScan.ReadRoot | hooks/codex-subagent-graph.mjs:641-671 | Rejects a root without metadata, a subagent or a duplicate, aborts at the node limit, or keeps the root |
| GraphScan.SubagentScan.ReadRoots | hooks/codex-subagent-graph.mjs:640-672 | All roots, until aborted |
| GraphScan.SubagentScan.WalkOneDay | hooks/codex-subagent-graph.mjs:725-741 | The candidates of one day directory, up to the candidate limit |
| GraphScan.SubagentScan.WalkFallback | hooks/codex-subagent-graph.mjs:720-743 | The fallback over the days, until the limit or the clock stops it |
| GraphScan.SubagentScan.LocateChild | hooks/codex-subagent-graph.mjs:758-763 | Direct candidates, else fallback candidates, else a diagnostic |
| GraphScan.SubagentScan.ValidateCandidates | hooks/codex-subagent-graph.mjs:765-779 | Keeps the candidates whose metadata carry the child's id and records their state |
| GraphScan.SubagentScan.DigestCandidates | hooks/codex-subagent-graph.mjs:781-791 | The distinct digests of several candidates |
| GraphScan.SubagentScan.AdmitChild | hooks/codex-subagent-graph.mjs:792-842 | Every objection in its order, then the agent with its depth and its edges |
| GraphScan.SubagentScan.VisitChild | hooks/codex-subagent-graph.mjs:757-842 | One child from its candidates to acceptance or diagnostic |
| GraphScan.SubagentScan.DrainQueue | hooks/codex-subagent-graph.mjs:748-843 | The main loop reaches what the specified loop reaches, and terminates |
| GraphScan.SubagentScan.FlagChangedSources | hooks/codex-subagent-graph.mjs:848-851 | One diagnostic for every source that changed while it was scanned, and for no other |
| GraphScan.SubagentScan.RecheckSources | hooks/codex-subagent-graph.mjs:847-852 | The recheck runs only if nothing was aborted and there are sources |
| GraphScan.SubagentScan.Compose | hooks/codex-subagent-graph.mjs:520-901 | The object ends in exactly the state the theorems above speak of, and the verdict follows diagnostics and agents |
| FlowSnapshot.ChangedExactly | hooks/git-snapshot.mjs:605-616 | The changed paths are exactly the paths whose worktree or physical fingerprint differs, in either direction |
| FlowSnapshot.UnchangedExactly | hooks/git-snapshot.mjs:605-629 | A path has not changed exactly when its content and its physical state are the same, or absent, in both snapshots |
| FlowSnapshot.QuietComposes | hooks/git-snapshot.mjs:605-629 | A quiet step can be left out of a chain of snapshots, and is quiet both ways |
| FlowSnapshot.TreeBySegments | hooks/git-snapshot.mjs:685-695 | A tree pattern matches by whole path segments: the base and what is below it, never a sibling with a longer name |
| FlowSnapshot.AllowedExactly | hooks/git-snapshot.mjs:684-695 | A path is allowed exactly when it is in the list, or at or below the root of a tree that is, by whole segments |
| FlowStore.RunSound | packages/harness/src/flow-store.mjs:379-566 | Any interleaving of store calls keeps every flow readable, at most one open flow a session, never a receipt beside a reservation, and nothing durable is taken back or rewritten |
| FlowStore.ReceiptsInRuns | packages/harness/src/flow-store.mjs:259-270 | Every receipt in a run from the empty store has changed paths, all allowed by its contract, and green evidence for exactly the contract's sensors in order |
| FlowStoreLaws.ReadExactly | packages/harness/src/flow-store.mjs:225-440 | A flow can be read exactly when it is finished, or reserved and perhaps promoted, or neither, and contract, attempts, receipt, reservation and promotion fit each other field by field |
| FlowStoreLaws.RecordsInRuns | packages/harness/src/flow-store.mjs:379-567 | So every record of every flow is in every run of store calls |
| FlowStoreLaws.CreateExactly | packages/harness/src/flow-store.mjs:379-394 | A contract is created exactly with paths and sensors, once, in a session that is readable and has no open flow |
| FlowStoreLaws.AppendExactly | packages/harness/src/flow-store.mjs:528-539 | An attempt is written exactly on a readable, active flow under an id that stands for no other attempt, and nothing else changes |
| FlowStoreLaws.WriteReceiptExactly | packages/harness/src/flow-store.mjs:541-555 | A receipt is written exactly on a readable flow that is not reserved, if it fits the contract, and only once |
| FlowStoreLaws.ReserveExactly | packages/harness/src/flow-store.mjs:495-526 | A reservation is written exactly on a readable, open flow, if it fits contract and attempts, and only once |
| FlowStoreLaws.WritePromotionExactly | packages/harness/src/flow-store.mjs:557-567 | A promotion is written exactly on a readable, reserved flow, if it repeats the reservation |
| FlowStoreLaws.ErrorsExactly | packages/harness/src/flow-store.mjs:495-567 | Exactly when a call says that its flow is unknown, is over, or has new attempts, and that an unreadable flow is corrupt |
| FlowStore.FlowFiles.constructor | packages/harness/src/flow-store.mjs:28-46 | A new store is empty and sound |
| FlowStore.FlowFiles.CreateContract | packages/harness/src/flow-store.mjs:379-394 | Creates a contract once, and only if the session has no open flow |
| FlowStore.FlowFiles.AppendAttempt | packages/harness/src/flow-store.mjs:528-539 | Adds an attempt to an active flow only |
| FlowStore.FlowFiles.PutReceipt | packages/harness/src/flow-store.mjs:541-555 | Writes a receipt that matches the contract, unless the flow is reserved or promoted |
| FlowStore.FlowFiles.PutReservation | packages/harness/src/flow-store.mjs:495-526 | Writes a reservation that matches the contract and, on an active flow, its attempts |
| FlowStore.FlowFiles.PutPromotion | packages/harness/src/flow-store.mjs:557-567 | Writes the promotion that the reservation determines |
| FlowFinish.GreenExactly | hooks/flow-core.mjs:416-509 | The verdict is green exactly when the change is justified, although emptiness is looked at only before the sensors |
| FlowFinish.ReceiptSound | hooks/flow-core.mjs:478-523 | A receipt holds exactly the paths that differ between baseline and terminal snapshot: at least one, all allowed, none protected, on the frozen HEAD, with the evidence of the sensors |
| FlowFinishRuns.JudgePaths | hooks/flow-core.mjs:424-427 | One failure for each path outside the allowlist and one for each protected path |
| FlowFinishRuns.JudgeBefore | hooks/flow-core.mjs:416-440 | All failures found before the sensors |
| FlowFinishRuns.JudgeAfter | hooks/flow-core.mjs:447-471 | All failures found after the sensors, and the paths they report |
| FlowFinishRuns.RecordRed | hooks/flow-core.mjs:363-374 | A red attempt is appended and the flow stays as it is otherwise |
| FlowFinishRuns.FinishFlow | hooks/flow-core.mjs:376-531 | The whole call: terminal states, failing attempts, the frozen definition hash, the third snapshot and the receipt |
| FlowFinishRuns.FinishExactly | hooks/flow-core.mjs:376-531 | An active flow gets a receipt exactly when it is justified and the store accepts that receipt, and nothing else changes; a justified flow whose receipt is refused stays as it was |
| FlowFinishRuns.WarningIsLost | packages/harness/src/sensors-core.mjs:246-255 | A red sensor of warning severity passes the gate, the store then refuses the receipt, and neither receipt nor attempt is recorded |
| FlowRed.RedExactly | hooks/flow-core.mjs:363-531 | An active flow that is not justified ends with exactly one more attempt and everything else unchanged: each failure exactly when its reason holds, the paths that differ from the baseline in the snapshot taken last before the verdict, no evidence before the sensors and theirs afterwards; it is not recorded exactly when a path is not canonical or the id stands for another attempt |
| FlowRed.FinishElsewhere | hooks/flow-core.mjs:377-386 | A flow that is unreadable, finished or promoting is left as it is, and a finished one answers as finished again |
| FlowFinishRuns.ReceiptsJustified | hooks/flow-core.mjs:416-524 | In every run of finishing and other calls, each receipt belongs to a finishing call whose three snapshots justified it |
| FlowPromotionInv.HistoryKeeps | hooks/flow-core.mjs:712-889 | Locks, directories, origins, reservations and promotions fit together after every run with any number of processes, crashes and other calls |
| FlowPromotionRuns.OneOwner | hooks/flow-core.mjs:672-685 | No run, however interleaved and wherever it crashes, lets two flows own one change |
| FlowPromotionRuns.RecordsStay | hooks/flow-core.mjs:803-832 | Contract, reservation, promotion and receipt of a flow never change once written, in any later run |
| FlowPromotionRuns.CrashLeaves | hooks/flow-core.mjs:834-889 | A crash after the reservation leaves the flow reserved, the lock free, and a temporary file exactly when the process died inside an atomic write |
| FlowPromotionRuns.RetryExactly | hooks/flow-core.mjs:752-785 | Under acceptable snapshots a retry goes on exactly when no temporary file was left; otherwise it is refused, however often it is tried |
| FlowPromotionRuns.DriveCompletes | hooks/flow-core.mjs:834-889 | Left alone after its reservation a promotion ends promoted, with the record the reservation fixes |
| FlowPromotionRuns.RetryCompletes | hooks/flow-core.mjs:712-889 | The retry that a crash leaves open takes the flow to promoted, with the record fixed before the crash |
| FlowPromotionRuns.FirstReserves | hooks/flow-core.mjs:803-831 | An active flow whose change nobody owns is reserved, under the slug asked for or its contract's, from what its own inspection observed |
| FlowPromotionRuns.FirstCompletes | hooks/flow-core.mjs:687-891 | A first promotion, left alone, ends promoted with what it reserved |
| FlowPromotionRuns.SomeCrashBlocks | packages/vault/src/vault-path-safety.mjs:245-274 | The crash that blocks every retry is reachable: a process stands inside the atomic write of the origin after four steps |
| FlowRecord.BeginExactly | hooks/flow-core.mjs:695-712 | A promotion begins exactly for a readable, open flow under a legal slug (the reserved one, the one asked for, else the contract's) whose lock is free |
| FlowRecord.InspectExactly | hooks/flow-core.mjs:712-802 | The inspection lets an active flow reserve exactly when nobody else owns the change, nothing stands in its place and session and snapshot permit; it resumes exactly under the reserved slug over an empty directory or one with this flow's own origin and nothing foreign; a moved HEAD is no obstacle |
| FlowRecord.FirstTells | hooks/flow-core.mjs:803-889 | Left alone, a first promotion ends with a reservation that holds the slug asked for, the time, the contract, the attempts and exactly the paths that differ between baseline and observed snapshot, with the promotion that repeats these, one complete new directory, pointer and session on the slug, and everything else unchanged |
| FlowRecord.RetryTells | hooks/flow-core.mjs:834-889 | The retry that a crash leaves open writes exactly the promotion that repeats the reservation, and changes no other record |
| FlowRecord.SettleExactly | hooks/flow-core.mjs:862-885 | The last step writes the terminal record exactly when the repository is still as the inspection saw it, and safe; either way the process ends, its lock is free, and nothing else changes |
| FlowRecord.PromotionsJustified | hooks/flow-core.mjs:862-885 | In every run of processes, crashes and other calls, each promotion was written by such a last step |
| FlowVault.DriveWrites | hooks/flow-core.mjs:839-848 | All writes from origin to session registry, done without disturbance, or none if another origin is there |
| FlowVault.Vault.constructor | hooks/flow-core.mjs:687-694 | A new vault has no flow, no change directory and no lock |
| FlowVault.Vault.MayBegin | hooks/flow-core.mjs:695-712 | Refusals before the inspection: unknown, finished or promoted flow, unfit slug, other slug reserved, slug locked |
| FlowVault.Vault.OriginAcceptable | hooks/flow-core.mjs:752-785 | A retry accepts an empty directory, or the expected artifacts with an origin of the same contract |
| FlowVault.Vault.InspectFlow | hooks/flow-core.mjs:715-802 | All checks under the lock, in their order |
| FlowVault.Vault.WriteAtomic | packages/vault/src/vault-path-safety.mjs:225-275 | One file gets its new content by way of a temporary file: everything else in the directory stays and no temporary file is left |
| FlowVault.Vault.EnsureOrigin | hooks/flow-core.mjs:600-619 | The origin is written once; a different one is refused and nothing changes |
| FlowVault.Vault.WriteArtifact | hooks/change-core.mjs:223-246 | An artifact of the scaffold is written unless it exists |
| FlowVault.Vault.NewChange | hooks/change-core.mjs:217-248 | Scaffold and pointer: impact note and baseline are written only by the call that creates the proposal |
| FlowVault.Vault.EnrichProposal | hooks/flow-core.mjs:648-670 | The origin is added to the proposal once |
| FlowVault.Vault.WriteChange | hooks/flow-core.mjs:839-848 | Every write of the promotion but the last |
| FlowVault.Vault.ReserveChange | hooks/flow-core.mjs:803-831 | The reservation from what the inspection saw, or a refusal |
| FlowVault.Vault.CompletePromotion | hooks/flow-core.mjs:834-889 | Directory, writes, terminal look and terminal record end where the undisturbed steps end |
| FlowVault.Vault.RunLocked | hooks/flow-core.mjs:712-889 | Everything under the lock ends where the undisturbed steps end |
| FlowVault.Vault.PromoteFlow | hooks/flow-core.mjs:687-891 | The whole call refines the step relation that crashes and other processes interrupt |
| GitStatus.SplitFixed | hooks/git-snapshot.mjs:179-189 | The first n fields and the unsplit rest, or all fields of a short record |
| GitStatus.ParseStatus | hooks/git-snapshot.mjs:191-213 | The loop over the tokens gives the specified records |
| GitStatus.FixedColumns | hooks/git-snapshot.mjs:179-189 | The fields and the path come back, however many spaces the path has |
| GitStatus.RoundTrip | hooks/git-snapshot.mjs:191-213 | Printing any list of ordinary, rename, unmerged, untracked and ignored entries and parsing it gives back every record with its paths, in order; the second token of a rename is never read as a record |
| TreeWalk.TreeScan.constructor | hooks/git-snapshot.mjs:275-278 | A scan starts with nothing seen |
| TreeWalk.TreeScan.Record | hooks/git-snapshot.mjs:330-373 | The fingerprint of a protected entry, and whether it is unsafe |
| TreeWalk.TreeScan.Walk | hooks/git-snapshot.mjs:296-375 | One directory, depth first, up to the first limit; links and redirected entries are never descended |
| TreeWalk.TreeScan.WalkEntry | hooks/git-snapshot.mjs:303-374 | One entry and what is below it |
| TreeWalk.VisitsExactly | hooks/git-snapshot.mjs:303-374 | An entry is visited exactly when its path resolves through real directories that are not excluded, and is protected exactly when it or an ancestor is |
| TreeExact.ExcludedExactly | hooks/git-snapshot.mjs:280-284 | Excluded are exactly the entries of an excluded name and those at or below an excluded path, by whole segments |
| TreeExact.PathsDiffer | hooks/git-snapshot.mjs:285 | Different entries have different paths, so that no fingerprint overwrites another |
| TreeExact.SeenCounts | hooks/git-snapshot.mjs:306-320 | Counting stops exactly at a limit; otherwise the count and the greatest depth are those of the visited entries |
| TreeExact.ReachedExactly | hooks/git-snapshot.mjs:280-375 | The visits are exactly the reached entries |
| TreeExact.ScanReturnsExactly | hooks/git-snapshot.mjs:306-319 | The scan returns exactly when no reached entry is too deep and all fit the entry limit, and then reports their number |
| TreeExact.CountExact | hooks/git-snapshot.mjs:313 | The count is the number of reached paths: none is visited twice |
| TreeExact.FingerprintsExact | hooks/git-snapshot.mjs:322-373 | The fingerprint keys are exactly the reached entries that are protected or below a protected one |
| TreeExact.FingerprintOf | hooks/git-snapshot.mjs:330-373 | Each fingerprint is that of its own entry, and so is whether it is unsafe |
| TreeExact.PrintExactly | hooks/git-snapshot.mjs:330-373 | Two entries have one print exactly when they are the same but for the children of a directory |
| TreeExact.FingerprintsTell | hooks/git-snapshot.mjs:330-373 | Two scans agree at a path exactly when the entries there are the same but for the children of a directory, and unsafe are exactly the protected links, redirects, hard links and special files |
| Reader.ReadFirstJsonlLine | hooks/codex-rollout-meta.mjs:18-83 | For every pattern of short reads the answer is that of the whole file, from at most limit + 1 bytes, and a read error exactly when a read that is performed fails |
| Reader.NeedsNoMore | hooks/codex-rollout-meta.mjs:38-42 | No byte after the first limit + 1 matters |
| Reader.WrittenLine | hooks/codex-rollout-meta.mjs:55-72 | A line written with LF, with CR LF or with neither is read back exactly when it is not empty and fits, its CR included |
| Reader.LoneCarriageReturn | hooks/codex-rollout-meta.mjs:44-62 | A lone CR at the end of the file is an empty line, but before LF it is an empty file |
| Frontmatter.SplitStackedFrontmatter | hooks/frontmatter-repair.mjs:22-34 | The loop takes off block after block and leaves the body |
| FrontmatterSplit.SplitKeeps | hooks/frontmatter-repair.mjs:22-34 | Blocks, the newlines after each of them, and the body are the whole note again |
| FrontmatterSplit.KeyExactly | hooks/frontmatter-repair.mjs:46 | A line opens an entry exactly when it begins with ASCII letters, digits, `_` or `-`, at least one, and a colon |
| FrontmatterSplit.SpacesExactly | hooks/frontmatter-repair.mjs:57 | What trimming takes for white space |
| Frontmatter.ReadEntries | hooks/frontmatter-repair.mjs:40-60 | The ordered map of a block, trailing blank lines of each entry trimmed |
| Frontmatter.MergeStackedFrontmatter | hooks/frontmatter-repair.mjs:63-77 | The bottom block, then the others upwards, printed before the body |
| FrontmatterText.FenceOfLines | hooks/frontmatter-repair.mjs:26-28 | The closing fence found by the text search stands before the first later line that opens with three dashes |
| FrontmatterText.BlockClean | hooks/frontmatter-repair.mjs:26-30 | No line of a split block but its first opens with three dashes |
| FrontmatterText.SplitRest | hooks/frontmatter-repair.mjs:26-33 | What splitting leaves holds no further block and opens with no newline |
| FrontmatterText.FirstBlockOfLines | hooks/frontmatter-repair.mjs:26-30 | The first block of printed lines ends before their first dashed line |
| FrontmatterLaws.BlockEntries | hooks/frontmatter-repair.mjs:45-53 | Parsing a block gives an entry for exactly the keys that open its lines, and entries that print and read back |
| FrontmatterLaws.ReadBack | hooks/frontmatter-repair.mjs:45-53 | Parsing the lines of a sound map gives that map, order included |
| FrontmatterLaws.PrintedReadsBack | hooks/frontmatter-repair.mjs:40-60 | Printing a sound map as a block and parsing the block gives the same ordered map |
| FrontmatterRepair.MergeLaw | hooks/frontmatter-repair.mjs:67-74 | The fused map has exactly the union of the keys, each with the lines of the topmost block that has it, the bottom block's keys first and in order |
| FrontmatterRepair.OneBlockExactly | hooks/frontmatter-repair.mjs:76 | The result is that one block with the body unchanged exactly when no key after the first opens with three dashes; then a second merge has nothing to do |
| FrontmatterRepair.ValidateMerge | hooks/frontmatter-repair.mjs:80-93 | The check accepts exactly one block with every key kept and the body at the end |
| FrontmatterRepair.RepairExactly | hooks/frontmatter-repair.mjs:63-93 | The repair of a stacked note passes its own check, and so is written, exactly when no key after the first of the fused map opens with three dashes |
| Derived.ReadBody | hooks/derived-sections.mjs:206-214 | The loop over a section: prose kept in order, list items once each, blanks and placeholders dropped |
| Derived.UpsertSection | hooks/derived-sections.mjs:200-219 | The section rewritten with prose, existing items and new items |
| Derived.ApplyDerivedSections | hooks/derived-sections.mjs:31-39 | The three sections one after the other |
| Derived.MissingIn | hooks/derived-sections.mjs:134-145 | The entries of one section that are mentioned neither as link nor as path |
| Derived.MissingDerivedLinks | hooks/derived-sections.mjs:134-145 | The same for the three sections |
| DerivedText.SectionInText | hooks/derived-sections.mjs:118-125 | Locating a section by lines finds exactly the bounds that the two searches find in the text: the first marker, and the next second-level heading after it |
| DerivedText.MissingExactly | hooks/derived-sections.mjs:134-145 | Reported are exactly the items that no line of the section contains, neither as link nor as path; without the section none |
| DerivedText.PlaceholdersGo | hooks/derived-sections.mjs:206-218 | A merged section holds no placeholder and no blank line but the one between prose and items, unless it is new |
| DerivedLaws.BodySettles | hooks/derived-sections.mjs:206-218 | A merged body, with the blank lines written around it, merges into itself |
| DerivedRepair.UpsertStands | hooks/derived-sections.mjs:200-219 | Merging the same lines again changes nothing, and a regular note stays regular |
| DerivedRepair.OthersStand | hooks/derived-sections.mjs:31-39 | Merging one section leaves the settled other sections settled |
| DerivedRepair.OthersCalm | hooks/derived-sections.mjs:31-39 | Merging an undisturbed section neither disturbs another one nor repairs one that is disturbed |
| DerivedTheorems.StandsCloses | hooks/derived-sections.mjs:134-145 | In a settled section the detector finds nothing missing |
| DerivedTheorems.RepairCloses | hooks/derived-sections.mjs:31-39 | Where no present section that receives links has a second-level heading right after its own, the detector reports nothing for any section after the repair |
| DerivedTheorems.RepairOnce | hooks/derived-sections.mjs:31-39 | For such a note, repairing twice is repairing once |
| DerivedTheorems.MergeKeeps | hooks/derived-sections.mjs:206-218 | Everything before the section's heading and from its end on stays as it is, and every line inside that says something survives trimmed |
| DerivedTheorems.NothingLost | hooks/derived-sections.mjs:31-39 | Every line that is neither blank nor placeholder survives the whole repair of any note, at most trimmed at its end |
| DerivedTheorems.ClosesExactly | hooks/derived-sections.mjs:118-125 | Merging new items closes a present section exactly when no second-level heading follows its own heading at once |
| DerivedTheorems.RepairExactly | hooks/derived-sections.mjs:31-39 | The whole repair closes every section exactly when no present section that receives links has a second-level heading right after its own |
| DerivedTheorems.ProseKept | hooks/derived-sections.mjs:31-39 | The repair of any note keeps all lines that say something and are no list items, headings included, in their order and as often as they stand there, trimmed at the end |
| DerivedOrder.BelowExactly | hooks/derived-sections.mjs:25-27 | Links are compared by the first character that differs, a prefix first |
| DerivedOrder.SortedExactly | hooks/derived-sections.mjs:25-27 | The links of a section are all that were created, in ascending order, none twice |
| DerivedOrder.AddAllExactly | hooks/derived-sections.mjs:205-215 | Merging keeps the items that are there in their places and puts each new line after them once, in the order in which the lines come |
| Injection.BoundAll | hooks/change-core.mjs:351-358 | Every line of a block is bounded |
| Injection.CapInjectionBlock | hooks/change-core.mjs:357-376 | The loop that drops lines from the end until the closed block fits |
| Injection.ListChanges | hooks/change-core.mjs:390-399 | The lines of the visible changes and their number |
| Injection.RenderOpenChanges | hooks/change-core.mjs:378-406 | The block of open changes with the omission notice, or nothing |
| Injection.BuildInjection | hooks/brain-inject.mjs:229-295 | The eviction ladder: lessons, then other changes, then the tail of the current change |
| InjectionLadder.EvictionOrder | hooks/brain-inject.mjs:256-294 | The output is the first of four texts that fits, else the last: everything; without the lessons; without the other changes; with the current change cut to the room left |
| InjectionLadder.FixedStands | hooks/brain-inject.mjs:256-294 | Memory, profile notice, router and focus always stand in the output in full |
| InjectionLadder.LessonsStand | hooks/brain-inject.mjs:256-258 | The lessons stand in full whenever everything fits |
| InjectionLadder.ChangesStand | hooks/brain-inject.mjs:260-263 | Every change, current or not, stands with its header and all its open tasks whenever they fit without the lessons |
| InjectionLadder.CurrentStands | hooks/brain-inject.mjs:265-273 | The current change stands with its header and all its open tasks whenever it fits beside the notices |
| InjectionLadder.HarnessOff | hooks/brain-inject.mjs:238-240 | With the harness off memory, profile notice and lessons stand alone, whatever their size |
| InjectionBlock.BoundExactly | hooks/change-core.mjs:351-355 | A line that is too long keeps a prefix and the marker and then has exactly the characters allowed |
| InjectionBlock.FittingStays | hooks/change-core.mjs:357-362 | A block that fits, to the last byte, is not cut |
| InjectionBlock.WeightExactly | hooks/change-core.mjs:359 | A character takes the fewest bytes of UTF-8 that it fits into |
| InjectionBlock.BlockSays | hooks/change-core.mjs:384-406 | Between its tags the block says which change is current, the warning of the pointer, the visible changes, how many were omitted, the hint and the advice, each exactly when it applies, and nothing else |
| InjectionBlock.ChangeSays | hooks/change-core.mjs:393-399 | A change takes its header and then its warning, or that nothing is open, or its open tasks in order |
| InjectionBlock.ChangesInOrder | hooks/change-core.mjs:393-399 | Changes are listed one after the other, in order |
| InjectionBlock.OmittedExactly | hooks/change-core.mjs:390-401 | In the restricted list exactly the current changes are visible, and the number omitted is that of all others |
| InjectionBlock.DecimalReads | hooks/change-core.mjs:395 | A number is written in the decimal digits that stand for it |
| InjectionBlock.NoBlock | hooks/change-core.mjs:384 | There is no block exactly when there is no change and no warning of the pointer |
| InjectionBudget.CapBounded | hooks/change-core.mjs:357-376 | A capped block never exceeds its bytes, provided the tags and the marker alone fit |
| InjectionBudget.CapKeepsPrefix | hooks/change-core.mjs:357-376 | A block that does not fit keeps a proper prefix of its lines with both tags, and one more line would not have fit |
| InjectionBudget.BlockFramed | hooks/change-core.mjs:378-406 | Every block of open changes opens and closes with its tag and has no empty line |
| InjectionBudget.BudgetHolds | hooks/brain-inject.mjs:256-295 | With the harness active the output is at most 24576 bytes whenever the parts that cannot be evicted leave 513 |
| InjectionBudget.BudgetLost | hooks/brain-inject.mjs:256-295 | If the memory, the profile notice, the router and the focus alone exceed the budget, no step of the ladder helps |
| InjectionExact.FullBlock | hooks/brain-inject.mjs:276-294 | Some backlog of one current change overflows every earlier step and fills the last byte of the 512 that the last step grants |
| InjectionExact.BudgetExactly | hooks/brain-inject.mjs:256-295 | With the harness active the output fits for every backlog and all lessons exactly when the parts that cannot be evicted leave 513 bytes |
| InjectionSpace.MemoryBytes | hooks/brain-inject.mjs:149-213 | The memory, version 2 or legacy, stays within its guard, or it is the bare envelope, as large as the revision and state hash that it keeps |
| InjectionLayers.MemoryHolds | hooks/brain-inject.mjs:122-188 | The memory of version 2 holds each valid layer in full and an error for every other one, and says which it is; beyond the guard it is the envelope with its own error. No layer is ever cut |
| InjectionLayers.LegacyHolds | hooks/brain-inject.mjs:189-217 | The legacy memory holds core and digest if they are there, in full if valid and as an error otherwise |
| InjectionLayers.ClippedExactly | hooks/brain-inject.mjs:103-109 | The detail of an error keeps a prefix and says so when it is cut |
| InjectionLayers.FocusNames | hooks/brain-inject.mjs:219-252 | The focus names the change of the session within 320 characters, tags included, in full if it is short enough |
| InjectionSpace.VaultExactly | hooks/brain-inject.mjs:229-295 | For a vault as it is read the output always fits exactly when the memory fits the room beside it: always while the guard is not exceeded, and beyond it exactly when revision and state hash are short enough |
| InjectionSpace.ValidVaultFits | hooks/brain-inject.mjs:139-147 | A vault whose SHARED_MEMORY.md passes its validation, or is absent, always fits |
| InjectionSpace.LongHashExactly | hooks/brain-inject.mjs:178-185 | A SHARED_MEMORY.md that holds one state hash beyond the guard lets the output fit exactly while the hash fits the room, and from 24576 characters on no output fits |

## Left out

- WarningIsLost: states what happens to justified flows with non-green evidence; the text of the thrown error is not modelled.
- ExactClosure: says nothing about degraded scans, where one refused edge blocks its child for good; its condition on parents is shown necessary by `ClashExactly`.
- EnqueueEdge: leaves out the statuses and the graph evidence that the same call records.
- EnqueueEdges: leaves out the statuses and the graph evidence that the same calls record.
- AdmitChild: leaves out the agent's status, type, model and effort.
- Compose: leaves out the final sort, the aggregate (see `ScanUsage`) and the frontier hashes.
- AggregateAgents: leaves out costs and the final sort of the rows.
- FinishFlow: keeps failures and changed paths as sets, and the session projection is an observation.
- Walk: leaves out entries that vanish while the walk reads them.
- WalkEntry: leaves out an entry that vanishes while the walk reads it.
- CacheTransparent: assumes offline mode and a cache whose valid entries are what parsing the file gives; live scans may stop at their limits.
- UsageConserved: counts calls and tokens; the rounded costs of rows and agents are not modelled.
- RetryCompletes: promises the durable record and an enriched proposal, not identical directory contents: after a crash past the proposal the impact note and the baseline are not written.
- CountExact: assumes a directory listing without duplicate names, as a file system gives it.
- RepairCloses: has a condition on sections that receive links; `RepairExactly` shows it is exact, for items that the headings do not mention by chance.
- VaultExactly: its second part assumes that the code of a profile diagnostic takes at most 512 bytes; codes are constants of the program.
- ValidVaultFits: assumes that an integer is shown in at most 32 characters.
- RoundTrip: is stated for non-empty paths without NUL and, of fixed columns, without spaces, as Git prints them.
- Time stamps, the host coverage of an aggregate, and the texts of error messages.
- Trimming of registry fields: ids, tokens, slugs and paths arrive trimmed and worktree paths normalised; the cuts to a stored length are modelled where they matter for fencing and lookup.
- The updater of a context is given by the value it returns; process liveness is a set of pids; revisions do not overflow.
- Registry lists that the source sorts and deduplicates are sets, and a causal snapshot is a multiset of its entries.
- The legacy pointer files and `migrateLegacyActiveContext`, which write projections outside the registry lock.
- The ranking of agent statuses, the final sorts, cost rows and the frontier hashes of the graph.
- JSON and UTF-8 decoding are functions from lines to events and from bytes to chunks of text; the order and deduplication of candidate paths is a function given by the environment.
- File system, Git, hashes and clocks are observations given to each call. Hashes are injective. The policies for protected paths and canonical paths are arbitrary predicates.
- Finish failures and changed paths are sets, not lists; the projection of a receipt or promotion into the session note is not modelled.
- Finding a flow by id alone in any session: flows are looked up by session and id.
- Writers other than promotions in a change directory, file contents of the scaffold, and torn writes of files that are not replaced atomically.
- Waiting for a lock and its time-out: a lock that is held is a refusal; the lock of a dead owner counts as free.
- Entries that vanish or change while the tree walk reads them, and Windows case folding and separators.
- Placeholder pattern and link form of derived sections are given by a configuration; it is assumed that links are neither placeholders nor end in a space, and that no second-level heading is a placeholder.
- Lengths are counted in characters instead of UTF-16 units, and cleaning of injected memory text is the identity.
- The content rules of the memory validators and the reasons they print are given by the environment; only their sizes and line lengths are modelled. Building the lessons is not modelled.
- `startFlow`, `flowStatus`, `indexDerivedBySession`, sweeping of stale sessions and the walk over all notes of a vault.
