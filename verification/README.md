# Verified model of the DOHAA controller and its evidence tools

Each module models one component of the repository and proves what that component is for.
The model has four parts.

- **Crash-safe effects.** The tool simulator, the intent journal and the executor form a
  write-ahead protocol over two databases; host steps, decisions and the controller's ledger
  add three more. A transaction is one atomic step, a running call is a frame that names its
  next step, frames interleave freely and may vanish between steps, and the theorems are
  invariants over all runs: one effect per operation, nothing without authority, recovery to
  the original receipt, and progress of what is left to run. The model-residency journal is
  the same kind of machine around an external server.
- **Evidence resolution and selection.** The memoised resolver equals the uncached one for
  every graph and every cache history, and finds exactly what records derive; selection under
  a byte budget keeps every covered answer, promotes no other, and is optimal.
- **Rule-aware repair.** JSON Pointer text, tree reads and writes, the structural diff, the
  assertion frame, deterministic repair, scope derivation and the controller's run, up to
  whole-run monotonicity. The evidence ledger and human-approved resumption belong here too.
- **Document streams.** The delivery log, the temporal reducer, the current view, the
  citation gate and byte-bounded memory selection.

Where the code works by updating state it is a class or a loop, proved against a function
on values, and the properties are lemmas about that function. Lists that Python keeps sorted
or dictionaries whose order does not matter are sets and maps. SHA-256 is an injective
constructor, so a digest is the value it was computed from and the zero digest is never
produced. JSON and record text is taken after parsing where only its content matters.

Four places where the code does not do what its neighbours suggest are kept as they are, with
the input or the exact condition that shows it:

- An assertion whose target pointer is longer than 2041 characters advertises a repair scope
  that the policy always refuses, because the added `/result` prefix passes its 2048-character
  limit (`LongTargetsAreRefused`, `AdvertisedScopeAcceptance`).
- Without a repair policy, a run that stops because an answer came back returns that answer
  with the verdicts of the one just before it (`LegacyNoProgressMispairs`,
  `ResultsFitExactlyWhen`).
- An append to the evidence ledger outside a transaction reads the newest hash and inserts in
  two steps. Two processes on one ledger file can both link to the same record, and the ledger
  then fails its own verification (`OvertakingBreaksTheChain`,
  `VerifiesExactlyWhenNeverStale`). The runs of `Resume` are stated for appends that may be
  stale in this way.
- A tool decision left deciding by a crash before its controller's run is complete in the
  ledger stays deciding for good: no call runs the controller on it again
  (`UnprovedStaysDeciding`, `DecidingSettlesExactlyWhen`).

Module map: `Prelude`, `Order`, `Json`, `Pointers`, `PointerAccess`, `Diff` are shared;
`RepairScopes`, `SemanticAssertions`, `SemanticRepair`, `RepairPolicy`, `Controller`,
`RunMonotonicity`, `BusinessDays`, `HashChain`, `EvidenceLedger`, `SharedLedger`, `Resume` cover the
controller; `ControlledTools`, `ToolInvariants`, `ExactlyOnce`, `Executors`, `ToolProposal`,
`HostSteps`, `ToolWorkflow`, `ToolAuthority`, `ToolRecovery`, `ToolDecisions`, `ToolProgress`,
`ToolRoute`, `ModelResidency`
cover effects; `DocumentStream`, `DocumentView`, `QueryMemory`, `EvidenceRecords`,
`EvidenceMeaning`, `EvidenceSelection` cover evidence.

## Model

| member | source | states |
|---|---|---|
| ControlledTools.ToolStore.Seed | tools/controlled_tools.py:105-111 | a product is seeded once; a second seeding changes nothing and fails |
| ControlledTools.ToolStore.Grant | tools/controlled_tools.py:113-125 | a grant is immutable: repeating it is accepted, changing it fails |
| ControlledTools.ToolStore.JudgeOperation | tools/controlled_tools.py:152-171 | the code of a fresh operation, in the source's order of checks |
| ControlledTools.ToolStore.WriteEffect | tools/controlled_tools.py:175-185 | the reservation and the stock change of an applied operation |
| ControlledTools.ToolStore.Apply | tools/controlled_tools.py:139-192 | one transaction: the stored answer for a known identity, the effect and its receipt together for a fresh one, and the old tables if the fault between them fires |
| ControlledTools.SumActive | tools/controlled_tools.py:160-161 | the loop's total is the sum over the task's active reservations of the product |
| ControlledTools.IntentJournal.PrepareIntent | tools/controlled_tools.py:205-219 | a new intent only for an unused identity and a task with nothing pending; the stored row for an exact repeat |
| ControlledTools.IntentJournal.Pending | tools/controlled_tools.py:221-225 | a row exactly when the task has a pending intent, and then such a row |
| ControlledTools.IntentJournal.Record | tools/controlled_tools.py:227-254 | a receipt is stored only if it is bound to the intent's payload, and never replaced by another |
| ControlledTools.IntentJournal.CompleteIntent | tools/controlled_tools.py:256-262 | completion needs a receipt and returns it |
| ToolInvariants.AppliedExactlyWhenAllowed | tools/controlled_tools.py:152-171 | an operation is applied if and only if grant, stock, version and quota or reservation allow it, stated without the order of the checks |
| ToolInvariants.ReceiptReportsTheStock | tools/controlled_tools.py:173-192 | a fresh receipt is bound to its operation and reports the stock and version it left; only that product moved, by the quantity, and its version by one |
| ToolInvariants.ReceiptSaysWhy | tools/controlled_tools.py:152-171 | the code on a fresh receipt is the one whose own condition on grant, stock, version, quota and reservation holds, for each of the eight codes |
| ToolInvariants.EffectOnReservations | tools/controlled_tools.py:175-185 | a reserve adds exactly its own active reservation, a release makes inactive exactly the one it names |
| ToolInvariants.TakenIdentityIsRefused | tools/controlled_tools.py:143-148 | an identity known under another payload is refused and changes nothing |
| ToolInvariants.GrantsAreFinal | tools/controlled_tools.py:113-125 | no later call changes or removes a grant |
| ToolInvariants.SumDeactivate | tools/controlled_tools.py:160-161 | deactivating a reservation lowers exactly its own product's and task's sum by its quantity |
| ToolInvariants.ApplyKeepsTables | tools/controlled_tools.py:139-192 | receipts stay unique and valid, reservations stay backed by applied operations with unused identities, counts stay non-negative |
| ToolInvariants.ApplyKeepsBalances | tools/controlled_tools.py:149-192 | stock plus active reservations, versions and grants stay balanced across one operation |
| ToolInvariants.InventoryInvariants | tools/controlled_tools.py:105-192 | over every sequence of calls: stock plus active reservations is what was seeded, no task exceeds its grant, versions count applied operations, and every stored receipt satisfies the journal's validator |
| ToolInvariants.ReceiptsAreFinal | tools/controlled_tools.py:143-148 | a receipt is never rewritten, and presenting its operation again at any later time returns it and changes nothing |
| ExactlyOnce.ApplyAnswers | tools/controlled_tools.py:286-289 | reconciling never presents the tool with an identity it knows under another payload |
| ExactlyOnce.EffectIsLast | tools/controlled_tools.py:215-219 | a fresh effect belongs to its task's latest intent, since every earlier one is complete |
| ExactlyOnce.StepKeeps | tools/controlled_tools.py:273-295 | one transaction of one frame keeps both databases consistent, only adds to them, and never raises Conflict once prepared |
| ExactlyOnce.EveryRunIsSafe | tools/controlled_tools.py:205-295 | over every interleaving of any number of executors with crashes anywhere: receipts have intents with the same payload, recorded receipts are the tool's, completed intents have receipts, effects of a task follow prepare order, and no reconciling step raises |
| ExactlyOnce.ExactlyOneEffect | tools/controlled_tools.py:265-295 | an operation changes the inventory exactly once if the tool holds an applied receipt for it, and never otherwise |
| ExactlyOnce.OnlyExecutorsAndSeeding | tools/controlled_tools.py:105-192 | nothing but host seeding and an executor at its apply changes the inventory |
| ExactlyOnce.OneResult | tools/controlled_tools.py:283-295 | all finished calls for one operation return the tool's one receipt |
| ExactlyOnce.RecoveryDrains | tools/controlled_tools.py:279-295 | whatever crashed, a later recover left to run finishes the task's pending intent with the tool's receipt and leaves nothing pending; it does nothing exactly when nothing was pending |
| Executors.Executor.Execute | tools/controlled_tools.py:273-277 | cut off after any number of database accesses, the call leaves both databases as its frame does |
| Executors.Executor.Resume | tools/controlled_tools.py:279-281 | the same for recover |
| Executors.Executor.Reconcile | tools/controlled_tools.py:283-295 | the same for the shared tail, from lookup to completion |
| ToolProposal.BoundStaysInScope | tools/controlled_tool_proposal.py:94-144 | whatever a model writes, a bound operation carries the host's identities and lies inside the host step |
| ToolProposal.PermittedExactlyWhenInScope | tools/controlled_tool_proposal.py:94-144 | round trip: an operation written as a proposal binds to itself if and only if the step permits it |
| ToolProposal.AbstentionHasNoOperation | tools/controlled_tool_proposal.py:118-123 | an abstention grants nothing and comes only with the fixed reasons |
| HashChain.VerifyLinks | tools/host_steps.py:162-169 | the validating loop accepts exactly the chains in which every link covers its body and its predecessor |
| HashChain.SameLastHashSameChain | src/hermes_dohaa/evidence/ledger.py:208-242 | two verifying chains that end in the same hash agree link for link |
| HashChain.FitsExactlyWhenSeen | src/hermes_dohaa/evidence/ledger.py:147-151 | a link fits a verifying chain if and only if its writer had seen all of it |
| HashChain.NextHashIsNew | src/hermes_dohaa/evidence/ledger.py:101 | in a verifying chain the next link never repeats a hash |
| HostSteps.HostStepStore.Validate | tools/host_steps.py:157-180 | accepts exactly when the chain verifies and every row is the latest snapshot with matching columns |
| HostSteps.HostStepStore.Audit | tools/host_steps.py:182-189 | a changed row and its chained snapshot are written together |
| HostSteps.HostStepStore.AllocateStep | tools/host_steps.py:200-217 | refines the allocation transaction and keeps the store consistent |
| HostSteps.HostStepStore.Begin | tools/host_steps.py:237-250 | refines the request transaction and keeps the store consistent |
| HostSteps.HostStepStore.Record | tools/host_steps.py:252-298 | refines record_terminal and keeps the store consistent |
| HostSteps.HostStepStore.FillIn | tools/host_steps.py:286-296 | the last transaction of record_terminal re-checks the binding and the state it saw |
| HostSteps.HostStepStore.Reconcile | tools/host_steps.py:305-342 | refines the effect observation and keeps the store consistent |
| HostSteps.SameHeadSameStore | tools/host_steps.py:157-189 | two stores that validate and end in the same event hash hold the same steps and history |
| HostSteps.AllocationIsImmutable | tools/host_steps.py:200-215 | a repeated scope returns the original row and a changed one is refused; no other row changes |
| HostSteps.RequestIsBound | tools/host_steps.py:237-248 | a bound request is the one asked for, unused before, on an allocated step with nothing pending; no other row changes |
| HostSteps.TerminalIsRecorded | tools/host_steps.py:256-296 | the stored terminal is the evidence's own for this request and policy, and binding its content to the step decides the state |
| HostSteps.EffectIsObserved | tools/host_steps.py:305-341 | an effect is recorded if and only if the intent is complete with a valid receipt that the tool also holds |
| HostSteps.AllocatedExactlyWhen | tools/host_steps.py:200-217 | a scope is allocated if and only if it repeats one or is new to a task with nothing pending and no active step, and each refusal has its own condition |
| HostSteps.RequestBoundExactlyWhen | tools/host_steps.py:237-250 | a request is bound if and only if the step is allocated, its task quiet and the request unused, and each refusal has its own condition |
| HostSteps.TerminalRecordedExactlyWhen | tools/host_steps.py:256-296 | a terminal is recorded if and only if the evidence is for this request and policy, finished by the server, in a known shape, and the task quiet; a failed request keeps its code |
| HostSteps.TerminalIsFinal | tools/host_steps.py:286-296 | once recorded, only the same terminal is accepted again, and nothing changes |
| HostSteps.AllocateKeeps | tools/host_steps.py:126-134 | unique steps, unique requests, one active step per task, state-consistent columns |
| HostSteps.StoreTerminalKeeps | tools/host_steps.py:286-296 | the same, and columns are written once while the state only moves on |
| HostSteps.ReconcileKeeps | tools/host_steps.py:307-341 | the same for effects |
| ToolAuthority.VerifiedMaterialIsAdmitted | tools/controlled_tool_routes.py:34-45 | the two configured gates admit the material of every recorded proposal |
| ToolAuthority.ProofIsPermanent | tools/controlled_tool_routes.py:244-281 | a completed proof is untouched by later runs on other contracts |
| ToolAuthority.ReconcileIsSettled | tools/host_steps.py:305-342 | the host records only effects whose intent and tool receipt agree on the bound operation |
| ToolAuthority.NextKeeps | tools/controlled_tool_routes.py:289-390 | every transaction of decide, execute and recover, and every host call between them, keeps decisions, proofs, intents, receipts and host rows consistent |
| ToolAuthority.NothingWithoutAuthority | tools/controlled_tool_routes.py:345-364 | over every crashing run, an intent or receipt exists only under an executing or done decision with an accepting, non-abstaining proof, for the operation that binding put inside the host step |
| ToolAuthority.ExactlyOneEffect | tools/controlled_tool_routes.py:345-390 | across the five stores, one inventory change per applied receipt and never another |
| ToolAuthority.DoneIsTheToolsReceipt | tools/controlled_tool_routes.py:326-343 | a done decision reports the tool's one receipt for its operation |
| ToolRecovery.RecoveryReturnsTheOriginal | tools/controlled_tool_routes.py:373-390 | from every reachable executing decision, if the bridge still answers the recorded terminal, recover ends done with the original receipt if and only if no other operation of the task is pending; otherwise it changes nothing, and the tool, the journal and the host already hold the effect; a tool that already held the receipt is not touched |
| ToolRecovery.BlockedIsSettled | tools/controlled_tool_routes.py:188-192 | another operation of the task is pending beside an executing decision only once that decision's own effect is settled in tool, journal and host |
| ToolRecovery.PrepareAccepts | tools/controlled_tools.py:205-219 | the journal cannot refuse an authorized operation while nothing else of its task is pending |
| ToolRecovery.ReconcileAccepts | tools/host_steps.py:305-336 | with the intent complete and nothing pending, the host can always observe the effect |
| ToolDecisions.NoDecisionIsDenied | tools/controlled_tool_routes.py:244-324 | over every run each gate result the controller recorded is a pass and no decision is denied |
| ToolDecisions.DecidingSettlesExactlyWhen | tools/controlled_tool_routes.py:373-387 | if the bridge still answers the recorded terminal, recovering a deciding decision writes the close of an unavailable proposal or the admission the ledger proves, if and only if nothing of the task is pending and there is one; otherwise it changes nothing |
| ToolDecisions.UnprovedStaysDeciding | tools/controlled_tool_routes.py:386-387 | a deciding decision whose controller run is not complete in the ledger stays deciding, unproved, through any further calls, recoveries, crashes and host steps |
| ToolDecisions.ReportsAreTrue | tools/controlled_tool_routes.py:392-406 | over every run, a report names the decision's own state and admission, an effect if and only if the inventory was changed once for the operation, and the code of the tool's receipt if and only if there is one |
| ToolProgress.QuietStepIsDecided | tools/controlled_tool_routes.py:289-324 | over every run with the lock free, decide on an undecided step of a quiet task whose terminal the bridge verifies ends with that terminal recorded and the decision accepted if the proposal names an operation, an accepted abstention if it names none, closed if there is no proposal |
| ToolProgress.AcceptedIsCarriedOut | tools/controlled_tool_routes.py:345-371 | over every run with the lock free, if the bridge answers the recorded terminal, execute carries an accepted decision out, to done with a receipt the tool did not hold before, if and only if nothing of the task is pending, and otherwise changes nothing |
| ToolProgress.OthersAreNotCarriedOut | tools/controlled_tool_routes.py:345-371 | executing a decision that is neither accepted nor executing changes nothing |
| ToolProgress.ReportsExactlyWhenSettled | tools/controlled_tool_routes.py:392-406 | over every run, if the bridge answers the recorded terminal, a decision can be reported if and only if it is neither deciding nor executing and is done or has nothing pending beside it |
| ToolRoute.Route.Decide | tools/controlled_tool_routes.py:289-318 | left to run, decide leaves the stores as its interleaved call does, and reports exactly what a snapshot of them would, or raises where that would |
| ToolRoute.Route.Execute | tools/controlled_tool_routes.py:366-371 | the same for execute, which also raises when its decision was done but something of the task is pending |
| ToolRoute.Route.Recover | tools/controlled_tool_routes.py:373-390 | the same for recover |
| ToolRoute.Route.Show | tools/controlled_tool_routes.py:392-406 | the checks of a snapshot and what it reports |
| ToolRoute.Route.CarryOut | tools/controlled_tool_routes.py:345-364 | the execution body leaves the stores as its interleaved call does, and fails to finish only where nothing can be reported or a done decision is blocked |
| ToolRoute.Route.Conclude | tools/controlled_tool_routes.py:326-343 | the receipt check and the final write lead where the call leads; a refused receipt leaves every decision as it was |
| ModelResidency.Residency.Transition | tools/native_model_residency.py:89-113 | one transaction that moves the row as its table of states allows, or leaves it alone |
| ModelResidency.Residency.Evidence | tools/native_model_residency.py:214-234 | the recorded binding if and only if every check on it passes |
| ModelResidency.OrderedAtMostOnce | tools/native_model_residency.py:89-246 | over all interleavings and crashes: load and unload are each ordered at most once, no request begins twice, requests begun are the recorded terminals plus one exactly while generating, and every recorded terminal's evidence is accepted |
| ModelResidency.OrdersMatchTheRow | tools/native_model_residency.py:155-178 | load is ordered only while loading and unload only while unloading, for the journal's own instance, never while generating |
| ModelResidency.CatalogJustifiesTheIntent | tools/native_model_residency.py:151-187 | in every reachable system, loading and closing follow only an empty catalog, and generating and unloading only one that shows exactly the instance the journal owns, at its recorded context, which for generating is the context the journal was made for |
| ModelResidency.RequestsMove | tools/native_model_residency.py:99-111 | begun requests stay the recorded ones plus the one generating, none twice |
| ModelResidency.StartLeadsTo | tools/native_model_residency.py:155-178 | start left to run makes a new journal ready if and only if nothing was loaded and the server answers a named instance at the intended context; every other outcome is stated too |
| ModelResidency.BeginLeadsTo | tools/native_model_residency.py:180-187 | begin left to run generates the request if and only if the journal is ready, alone in the catalog, and the request is new |
| ModelResidency.TerminalLeadsTo | tools/native_model_residency.py:189-212 | recording a terminal makes the journal ready again, with that terminal, if and only if it is the finished one of the current request |
| ModelResidency.FinishLeadsTo | tools/native_model_residency.py:236-246 | finish orders the own instance unloaded once, if it is alone in the catalog, and closes if the catalog is empty afterwards |
| ModelResidency.EvidenceBindsTheLoad | tools/native_model_residency.py:214-234 | accepted evidence names its request and binds it to this journal's model, policy and context and to one load |
| EvidenceLedger.Ledger.Append | src/hermes_dohaa/evidence/ledger.py:142-170 | one chained record is added, or nothing on a read-only ledger |
| EvidenceLedger.Ledger.Rollback | src/hermes_dohaa/evidence/ledger.py:122-140 | the table and its counter return to where the transaction began |
| EvidenceLedger.Ledger.VerifyChain | src/hermes_dohaa/evidence/ledger.py:208-242 | accepts exactly the verifying chains |
| EvidenceLedger.Ledger.RecordsOf | src/hermes_dohaa/evidence/ledger.py:172-188 | the loop returns the run's records in order |
| EvidenceLedger.EveryLedgerVerifies | src/hermes_dohaa/evidence/ledger.py:122-170 | on one connection, appends, commits, rollbacks and crashes keep the chain verifying, inside and outside the transaction |
| EvidenceLedger.CommittedIsForever | src/hermes_dohaa/evidence/ledger.py:122-140 | on one connection, what is committed is a prefix of every later ledger |
| EvidenceLedger.SameHeadSameHistory | src/hermes_dohaa/evidence/ledger.py:208-242 | equal last hashes mean equal ledgers, record for record |
| SharedLedger.VerifiesExactlyWhenNeverStale | src/hermes_dohaa/evidence/ledger.py:122-170 | over all interleavings of any number of connections, with transactions and crashes, verify_chain holds if and only if no insert took effect on a table that had changed since its connection read the head |
| SharedLedger.StaleExactlyWhenOvertaken | src/hermes_dohaa/evidence/ledger.py:147-161 | an append outside a transaction is stale if and only if another connection changed the table between its read and its insert |
| SharedLedger.TransactionsAreNeverStale | src/hermes_dohaa/evidence/ledger.py:122-140 | an append inside a transaction has always seen the whole table |
| SharedLedger.FreshInsertsSucceed | src/hermes_dohaa/evidence/ledger.py:147-159 | in a verifying table an append that saw all of it is refused only for the lock, never by the unique hash |
| SharedLedger.OneConnectionVerifies | src/hermes_dohaa/evidence/ledger.py:142-170 | through one connection the ledger always verifies |
| SharedLedger.TransactionsVerify | src/hermes_dohaa/evidence/ledger.py:122-170 | with every insert inside a transaction the ledger always verifies |
| SharedLedger.OvertakingBreaksTheChain | src/hermes_dohaa/evidence/ledger.py:147-161 | the input: two connections that read before either inserts leave two records with one predecessor, and a ledger that does not verify |
| Resume.ResumesExactlyWhenWaiting | src/hermes_dohaa/controller/engine.py:682-782 | resume succeeds if and only if the ledger verifies, the run stands at its approval checkpoint, and contract, gates, control plane and approval match |
| Resume.RefusalSaysWhy | src/hermes_dohaa/controller/engine.py:682-782 | each refusal of a resume has its own condition: ledger, run, eligibility, gates, control plane, contract, approval |
| Resume.EveryRunKeepsShape | src/hermes_dohaa/controller/engine.py:600-666 | over all runs and resumes, with appends linked to any head read earlier, each run is running, stopped, waiting or approved and sequence numbers count the records |
| Resume.LedgerVerifiesExactlyWhen | src/hermes_dohaa/evidence/ledger.py:142-170 | after any runs and resumes the ledger verifies if and only if no record appended outside a transaction had been overtaken |
| Resume.ResumesAtMostOnce | src/hermes_dohaa/controller/engine.py:668-802 | a run resumes to success exactly once if it ends approved and never otherwise |
| Resume.ResumeReturnsTheCheckpoint | src/hermes_dohaa/controller/engine.py:783-802 | the result repeats the proposal of the checkpoint directly before, all of whose gates passed, under explicit approval |
| Resume.ResumeReturnsThePausedRun | src/hermes_dohaa/controller/engine.py:600-802 | over every interleaving, a successful resume returns the proposal and verdicts that a controller's run under that identifier, for the same contract and control plane, had reached with every gate passed |
| Resume.RunThatAsks | src/hermes_dohaa/controller/engine.py:616-657 | a run that asks for approval has a proposal with all gates passed on it and at least one attempt |
| EvidenceRecords.Resolver.Lookup | tools/evidence_records.py:131-159 | cache transparency: whatever was cached before, the memoised resolver answers as the uncached one, value, dependencies, height or reason; the cache stays closed under reference and clear of the nodes being visited |
| EvidenceRecords.Resolver.Construct | tools/evidence_records.py:144-156 | the same for building a record from what it refers to |
| EvidenceRecords.CachedIsResolved | tools/evidence_records.py:134-136 | a cached node resolves to its entry if it fits under the depth limit and otherwise fails only for depth |
| EvidenceRecords.HeightFits | tools/evidence_records.py:157 | a record that resolves fits under the limit, so the last depth check never fires |
| EvidenceRecords.ResolveQuery | tools/evidence_records.py:161-179 | one query's row is the uncached one, in whatever order its root records are taken |
| EvidenceRecords.ResolveQueries | tools/evidence_records.py:161-179 | so is every row, with one cache shared by all queries |
| EvidenceRecords.RestrictionOnlyLoses | tools/evidence_records.py:131-159 | with fewer sources a node resolves if and only if it resolved before and everything it rests on was kept, and then identically |
| EvidenceMeaning.ResolvesExactlyWhenDerived | tools/evidence_records.py:131-159 | a node resolves to an entry if and only if it derives that value through links and lookups in that many steps, within the limit, resting on exactly those source revisions |
| EvidenceMeaning.DerivationIsUnique | tools/evidence_records.py:131-159 | a node derives at most one entry |
| EvidenceMeaning.RowSaysWhatIsDerived | tools/evidence_records.py:161-179 | a query is resolved if and only if every root is active, some record has its key, and all such records derive one and the same text; it is in conflict if and only if two derive different texts |
| EvidenceMeaning.GroupsAreDerived | tools/evidence_records.py:173-175 | a row's groups are exactly the texts derived under its key with the source revisions they rest on |
| EvidenceMeaning.ReasonsHold | tools/evidence_records.py:162-178 | a row's reasons are exactly those that hold of its roots and records |
| EvidenceMeaning.EveryFailureIsExplained | tools/evidence_records.py:131-159 | a record fails for a reason whose own condition holds at the end of a path of references from it |
| EvidenceSelection.NeedsKeptRowKept | tools/evidence_selection.py:38-47 | a resolved query all of whose roots and dependencies are kept has an identical row |
| EvidenceSelection.NothingIsPromoted | tools/evidence_selection.py:96-104 | a query resolved after selection was resolved before, with all its needs kept |
| EvidenceSelection.SelectionPreservesMeaning | tools/evidence_selection.py:94-104 | for any kept sources, the queries resolved afterwards are exactly the covered ones, in order, with the rows they had |
| EvidenceSelection.EverySubsetHasAMask | tools/evidence_selection.py:74-75 | the mask loop enumerates every subset of the needed sources |
| EvidenceSelection.CoverExactly | tools/evidence_selection.py:72-81 | the mask loop returns an affordable set of needed sources that no other such set ranks before, by queries covered, then envelope bytes, then names |
| EvidenceSelection.CoverNewest | tools/evidence_selection.py:82-92 | refines packing whole queries in the order given, each if the envelope still fits |
| EvidenceSelection.NewestComesFirst | tools/evidence_selection.py:82-92 | packing by recency keeps the order's priorities: whatever an affordable set covers that agrees on all queries before it is covered too |
| EvidenceSelection.TicksAreExtremes | tools/evidence_selection.py:86-88 | the ticks compared are the latest and the earliest arrival among the query's needed sources |
| EvidenceSelection.OptimalCoversTheMost | tools/evidence_selection.py:57-92 | among all affordable sets of active sources, needed or not, the exact policy covers the most queries, then uses the fewest bytes, then comes first by name |
| EvidenceSelection.NeededPartIsNoWorse | tools/evidence_selection.py:57-66 | dropping sources that no resolved query needs covers the same queries, and costs strictly fewer bytes if any is dropped |
| EvidenceSelection.KeptBytesGrow | tools/evidence_selection.py:49-55 | the serialized events never get shorter by keeping more sources, and strictly longer by keeping another active one |
| EvidenceSelection.NeverFewerThanNewest | tools/evidence_selection.py:72-92 | the exact policy never covers fewer queries than packing whole queries in any order |
| EvidenceSelection.SelectEvidence | tools/evidence_selection.py:30-106 | each refusal exactly when its check fails; otherwise the kept set meets its policy among all affordable sets of active sources, the payload is a valid request, the covered keys are those of the original resolution, and neither late runtime error nor the source limit can occur |
| EvidenceSelection.AnswersStand | tools/evidence_selection.py:96-104 | resolving the payload again, with the request validation and projection of its own, always gives the covered keys, in order, with the rows they had |
| EvidenceSelection.KeptRequestIsOk | tools/document_stream_request.py:56-68 | a valid request cut down to any set of sources is a valid request, limits included |
| EvidenceSelection.PayloadIsOk | tools/evidence_selection.py:96-99 | so the payload passes the validation that resolving it repeats, whatever was kept |
| EvidenceSelection.NeedsAreActive | tools/evidence_selection.py:57-63 | what resolved queries need are active permitted sources, at most twelve, and at least one for each query |
| EvidenceSelection.PayloadGraphIsRestricted | tools/evidence_selection.py:49-52 | re-resolving the selected payload works on exactly the restricted documents |
| DocumentStream.StreamStore.AppendBatch | tools/document_stream.py:103-144 | a batch is recorded whole or not at all, and the count returned is what was added |
| DocumentStream.AcceptedExactlyWhenConsistent | tools/document_stream.py:116-138 | an event is accepted if and only if it is already there or the log stays consistent with it |
| DocumentStream.RefusalSaysWhy | tools/document_stream.py:116-138 | an event is refused for a changed identity, for room or order, or for a changed revision, each exactly when that holds |
| DocumentStream.BatchStopsAtTheFirstRefusal | tools/document_stream.py:103-144 | a batch is refused at its first refused event, with that refusal, or for its length |
| DocumentStream.OnlyTheBatchIsAdded | tools/document_stream.py:103-144 | an accepted batch adds nothing but its own events |
| DocumentStream.AppendKeeps | tools/document_stream.py:103-144 | an accepted batch extends the log, keeps it consistent, and leaves every event of it delivered |
| DocumentStream.RedeliveryIsNoOp | tools/document_stream.py:106-108 | delivering an accepted batch again, whatever has arrived since, is accepted and changes nothing |
| DocumentStream.LatestIsFirstLatest | tools/document_stream.py:163-168 | a source's entry is its first delivery of its highest revision |
| DocumentStream.FirstLatestIsTheEntry | tools/document_stream.py:163-168 | conversely, a first delivery of the highest revision is its source's entry |
| DocumentStream.ActiveSources | tools/document_stream.py:156-170 | the loop computes the reducer's active sources of an observation |
| DocumentView.CheckEvents | tools/document_stream_request.py:56-68 | the loop accepts exactly well-formed events with unique identities, ordered arrivals and unambiguous revisions |
| DocumentView.CurrentView | tools/document_stream_projection.py:22-42 | the loops compute the view and the removal counts |
| DocumentView.RemovalsPartition | tools/document_stream_projection.py:27-40 | removed and retained events partition the input |
| DocumentView.FateIsTheReason | tools/document_stream_projection.py:27-40 | an event is superseded, a duplicate, retracted, expired or retained exactly when the deliveries say so, told without the reducer |
| DocumentView.CountsAreTheirs | tools/document_stream_projection.py:27-40 | each removal count is the number of events removed for that reason |
| DocumentView.ViewIsTheActiveSources | tools/document_stream_projection.py:22-40 | the view holds exactly one delivery per active source, and is the reducer's own answer |
| DocumentView.StoreViewIsTheActiveSources | tools/document_stream.py:146-170 | so over any log built by append, at any tick |
| DocumentView.ViewIsIdempotent | tools/document_stream_projection.py:13-19 | a view of a view is the view |
| DocumentView.ViewIsValid | tools/document_stream_projection.py:41-43 | a valid request has a valid view, never longer than itself |
| DocumentView.GateMeansCurrent | tools/document_stream_request.py:161-183 | the gate passes exactly the well-formed reports of requested facts whose every citation names a current, active revision |
| DocumentView.GateIgnoresProjection | tools/document_stream_request.py:161-183 | the gate gives the same verdict on a request and on its view, for every proposal |
| QueryMemory.AddKeepsAccount | tools/query_memory.py:65-75 | adding a fitting event keeps the running length exact and inside the budget |
| QueryMemory.SelectMemory | tools/query_memory.py:77-101 | the three loops compute the specified selection |
| QueryMemory.CoverLoop | tools/query_memory.py:77-85 | the coverage loop takes the best choice until none is left |
| QueryMemory.RoundsLoop | tools/query_memory.py:89-97 | the per-key rounds run until one adds nothing |
| QueryMemory.BestBeatsTheRest | tools/query_memory.py:79-85 | each coverage step takes the one choice that beats every other by new keys per byte, then new keys, then recency |
| QueryMemory.SelectionHasItsHistory | tools/query_memory.py:77-101 | how each strategy selects: by coverage first the best new keys per byte while there are any, by recency not; then, for both, key by key and round by round the newest fitting match until a round adds nothing; then the newest event that fits until none does |
| QueryMemory.RoundsLeaveNoMatch | tools/query_memory.py:89-97 | the rounds end only when no requested key has a fitting match |
| QueryMemory.SelectionIsExactAndMaximal | tools/query_memory.py:46-106 | the final length is the serialized length, within the cap, and no omitted event still fits |
| QueryMemory.LengthIsExact | tools/query_memory.py:102-106 | the accounting comparison at the end cannot fail |
| QueryMemory.ViewOfSelectionIsValid | tools/query_memory.py:102-103 | the selected view is a valid request |
| Json.JsonEqualIsIdentityUpToZeroSign | src/hermes_dohaa/assurance/result_spec.py:50-77 | json_equal is identity up to the sign of zero, on finite values only |
| Json.JsonEqualIsEquivalence | src/hermes_dohaa/assurance/result_spec.py:50-59 | it is an equivalence on exactly the finite values |
| Json.StrictEqualIsIdentity | src/hermes_dohaa/controller/repair_policy.py:551-577 | the strict equality of the diff is identity on finite values |
| Pointers.CheckEscapes | src/hermes_dohaa/assurance/semantic_assertions.py:763-780 | the scanning loop accepts exactly well-formed escapes |
| Pointers.TwoPassesAreOne | src/hermes_dohaa/controller/semantic_repair.py:220-221 | the two replacement passes of decoding equal one left-to-right reading of RFC 6901 section 4 |
| Pointers.EscapesMean | src/hermes_dohaa/controller/semantic_repair.py:220-221 | the two escapes and their order, as RFC 6901 section 4 has them |
| Pointers.EscapingRoundTrip | src/hermes_dohaa/controller/repair_policy.py:679-680 | encoding and decoding are inverse on valid tokens |
| Pointers.TokensDetermineText | src/hermes_dohaa/controller/semantic_repair.py:220-221 | decoding is injective on valid pointers |
| Pointers.OverlapIsComparability | src/hermes_dohaa/assurance/semantic_assertions.py:347-352 | textual overlap of valid pointers is comparability of their decoded tokens |
| PointerAccess.ResolvePointer | src/hermes_dohaa/assurance/semantic_assertions.py:725-760 | the walking loop resolves the decoded tokens, with the source's errors |
| PointerAccess.ReadFailsExactlyWhen | src/hermes_dohaa/assurance/semantic_assertions.py:725-760 | a read fails if and only if some value on the way has no such child, missing, no canonical index or no container |
| PointerAccess.ReplaceFailsAsResolve | src/hermes_dohaa/controller/semantic_repair.py:150-182 | a write succeeds exactly where a read does, and fails with its error |
| PointerAccess.ReadAfterWrite | src/hermes_dohaa/controller/semantic_repair.py:150-182 | what is written is read back |
| PointerAccess.WriteFrame | src/hermes_dohaa/controller/semantic_repair.py:150-182 | every incomparable position reads as before, errors included |
| Diff.NoChangesExactlyWhenEqual | src/hermes_dohaa/controller/repair_policy.py:529-548 | the diff is empty if and only if the documents are strictly equal |
| Diff.DiffSoundness | src/hermes_dohaa/controller/repair_policy.py:529-593 | a pointer overlapping no reported path resolves, or fails, identically in both documents |
| Diff.DiffPrecision | src/hermes_dohaa/controller/repair_policy.py:529-548 | finite documents differ at every reported path |
| RepairScopes.AllowedMeansConfined | src/hermes_dohaa/controller/repair_policy.py:393-415 | a candidate is allowed if and only if every difference is editable and none touches an immutable path |
| RepairScopes.AllowedChangesKeepImmutable | src/hermes_dohaa/controller/repair_policy.py:393-415 | an allowed candidate keeps the value, or the absence, at every immutable path |
| RepairScopes.ConfinedChangesFrame | src/hermes_dohaa/controller/repair_policy.py:580-593 | a pointer overlapping none of the paths a candidate was confined to reads the same |
| SemanticAssertions.FailedRulesAreThoseNotHolding | src/hermes_dohaa/assurance/semantic_assertions.py:184-240 | a rule is reported if and only if an assertion with its ID does not hold; what holding means is stated by the comparison rows |
| SemanticAssertions.NumberRuleFailsExactlyWhen | src/hermes_dohaa/assurance/semantic_assertions.py:716-722 | a rule comparing two finite numbers is reported if and only if their values do not stand in its relation, left to right |
| SemanticAssertions.StringRuleFailsExactlyWhen | src/hermes_dohaa/assurance/semantic_assertions.py:716-722 | the same for two strings in code point order |
| SemanticAssertions.NumbersCompare | src/hermes_dohaa/assurance/semantic_assertions.py:716-722 | on finite numbers the four order comparators are the order of their values |
| SemanticAssertions.StringsCompare | src/hermes_dohaa/assurance/semantic_assertions.py:716-722 | on strings they are the order by code point |
| Order.LessAtFirstDifference | src/hermes_dohaa/assurance/semantic_assertions.py:716-722 | that order is decided at the first difference, a proper prefix coming first |
| SemanticAssertions.OrderRefusesExactlyWhen | src/hermes_dohaa/assurance/semantic_assertions.py:709-715 | an order comparator refuses exactly the operands that are neither two finite numbers nor two strings, naming their types |
| SemanticAssertions.EqualityCompares | src/hermes_dohaa/assurance/semantic_assertions.py:699-702 | equals is identity of finite values up to the sign of zeros, not_equals its complement, and neither fails |
| SemanticAssertions.SetsCompare | src/hermes_dohaa/assurance/semantic_assertions.py:703-708 | set_equals compares the sets of members of two finite arrays within the limit, and refuses anything else |
| SemanticAssertions.ArgumentsInOrder | src/hermes_dohaa/assurance/semantic_assertions.py:524-651 | arguments give their values in order, or the error of the first that fails |
| SemanticAssertions.FailedRulesInOrder | src/hermes_dohaa/assurance/semantic_assertions.py:184-240 | failed rules are reported in the order of the assertions |
| SemanticAssertions.EvaluationReadsReferences | src/hermes_dohaa/assurance/semantic_assertions.py:524-651 | evaluation sees the result only through the expression's own references |
| SemanticAssertions.UnlistedRulesKeepTheirVerdict | src/hermes_dohaa/assurance/semantic_assertions.py:243-344 | a candidate confined to one scope's editable paths leaves every unlisted assertion with the same verdict or error |
| SemanticAssertions.FailuresChangeOnlyInsideScope | src/hermes_dohaa/assurance/semantic_assertions.py:243-344 | so it changes which rules fail only among the scope's own |
| SemanticAssertions.ScopeAdvertisedExactlyWhen | src/hermes_dohaa/assurance/semantic_assertions.py:243-344 | a scope is advertised if and only if every rule repaired together with the first failure has a target that is there, and different targets do not overlap |
| SemanticAssertions.ScopeIsTheUnit | src/hermes_dohaa/assurance/semantic_assertions.py:243-344 | an advertised scope lets edit exactly those targets, lists exactly those rules and the readers of what it lets edit, and is to resolve exactly the failing ones among them |
| SemanticAssertions.AdvertisedScopeAcceptance | src/hermes_dohaa/controller/repair_policy.py:114-160 | an advertised scope is accepted if and only if its paths fit the 2048-character limit after the result prefix |
| SemanticAssertions.LongTargetsAreRefused | src/hermes_dohaa/controller/repair_policy.py:114-160 | the input: for any plain field name of 2041 to 2047 characters, the parsed assertion that this field equals an input advertises, when it fails, a scope that is refused |
| SemanticRepair.CollectReplacements | src/hermes_dohaa/controller/semantic_repair.py:88-119 | the loop collects what the specification does, or refuses |
| SemanticRepair.WriteReplacements | src/hermes_dohaa/controller/semantic_repair.py:61-67 | the loop writes every replacement in order |
| SemanticRepair.ProposeRepair | src/hermes_dohaa/controller/semantic_repair.py:32-85 | the whole proposal step |
| SemanticRepair.ProposedExactlyWhenSound | src/hermes_dohaa/controller/semantic_repair.py:32-85 | a repair is proposed if and only if something was collected without conflict or overlap and changed the result; a write never fails |
| SemanticRepair.CollectedExactlyWhen | src/hermes_dohaa/controller/semantic_repair.py:88-119 | the collection succeeds if and only if every eligible equality has its target and a value to compare and the failing ones agree on shared targets; it then holds exactly the targets wanted changed, the value first wanted and the assertions wanting it |
| SemanticRepair.ListedAssertionsHold | src/hermes_dohaa/controller/semantic_repair.py:32-119 | every listed assertion holds on the repaired result |
| SemanticRepair.RepairFrame | src/hermes_dohaa/controller/semantic_repair.py:140-182 | every pointer disjoint from the replaced ones resolves as before |
| SemanticRepair.EligibleFailuresAreListed | src/hermes_dohaa/controller/semantic_repair.py:88-119 | an eligible failing assertion is listed, or nothing is proposed |
| SemanticRepair.RepairStaysInScope | src/hermes_dohaa/controller/semantic_repair.py:88-119 | a repair limited to editable paths changes nothing outside them |
| RepairPolicy.CollectFailureAtoms | src/hermes_dohaa/controller/repair_policy.py:471-526 | the loop collects the non-oracle failure atoms |
| RepairPolicy.AtomsAreFailures | src/hermes_dohaa/controller/repair_policy.py:471-526 | each atom names a counted gate that failed, each such gate has an atom, and there are none if and only if all counted gates passed |
| RepairPolicy.AcceptedIsStrictProgress | src/hermes_dohaa/controller/repair_policy.py:418-468 | a comparison is accepted if and only if the candidate's atoms are a strict subset of the baseline's with every required rule resolved and, if any is required, some failing before |
| RepairPolicy.SelectConnected | src/hermes_dohaa/controller/repair_policy.py:345-372 | the fixpoint loop terminates and selects exactly the component of the first failing scope |
| RepairPolicy.ClosedAndReachableIsComponent | src/hermes_dohaa/controller/repair_policy.py:345-372 | a closed, reachable selection is the component, whatever the order of the rest |
| RepairPolicy.DeriveRepairScope | src/hermes_dohaa/controller/repair_policy.py:309-376 | the derivation, including every refusal |
| RepairPolicy.DerivedExactlyWhen | src/hermes_dohaa/controller/repair_policy.py:309-376 | a scope is derived if and only if every failing gate that may advertise does so with new rules, there is one, and the scopes connected to the first are compatible |
| RepairPolicy.GatheredExactlyWhen | src/hermes_dohaa/controller/repair_policy.py:309-343 | scopes are gathered if and only if every failing non-oracle gate advertises a valid one in contract-visible mode and no two claim one rule, and they are then exactly those scopes |
| RepairPolicy.DerivedIsMadeOfAdvertised | src/hermes_dohaa/controller/repair_policy.py:345-376 | a derived scope is made of whole advertised scopes, the first one among them, and of nothing else |
| RepairPolicy.MergesExactlyWhenCompatible | src/hermes_dohaa/controller/repair_policy.py:163-204 | valid scopes merge if and only if together they stay within the item limits, no two of their paths overlap and no two of their groups share a path |
| RepairPolicy.DerivedScopeIsIsolated | src/hermes_dohaa/controller/repair_policy.py:309-376 | each failing gate's scope is wholly inside the derived scope or shares neither an overlapping path nor a group with it |
| Controller.RepairDeterministically | src/hermes_dohaa/controller/engine.py:492-582 | the bounded step loop, over the modelled gates, assertions and policy, follows the specified repair chain |
| Controller.Run | src/hermes_dohaa/controller/engine.py:212-490 | the attempt loop, with the source's variables and exits, calling the modelled scope check, repair steps and scope derivation, returns the specified run's result |
| Controller.RepairStep | src/hermes_dohaa/controller/engine.py:507-582 | one deterministic step adopts what the specification adopts |
| Controller.CheckScopedCandidate | src/hermes_dohaa/controller/engine.py:381-394 | a scoped candidate is accepted exactly as specified |
| Controller.CandidateStaysInScope | src/hermes_dohaa/controller/engine.py:507-582 | with parsed assertions, a deterministic candidate stays inside its scope, so the policy refuses its changes only for touching an immutable path |
| RunMonotonicity.PolicyRunsOnlyImprove | src/hermes_dohaa/controller/engine.py:212-490 | under a policy the failure atoms of successively adopted baselines strictly decrease and immutable values of the first survive |
| RunMonotonicity.PolicyRunReturnsLastBaseline | src/hermes_dohaa/controller/engine.py:212-490 | the returned verdicts are those of the returned proposal |
| RunMonotonicity.PolicyRunIsBounded | src/hermes_dohaa/controller/engine.py:227-490 | a run adopts at most as many baselines as its first one has failures, plus one |
| RunMonotonicity.SuccessMeansEveryGatePassed | src/hermes_dohaa/controller/engine.py:600-666 | a successful run's every gate passed on the returned proposal |
| RunMonotonicity.PassingRunSucceedsExactlyWhen | src/hermes_dohaa/controller/engine.py:600-666 | a run that returns a proposal on which every gate passed succeeds if and only if its contract asks for no approval or approval was given, and otherwise waits for approval if and only if its control plane could be captured; no other run ends that way |
| RunMonotonicity.PassingAnswerEndsTheRun | src/hermes_dohaa/controller/engine.py:228-447 | a well-formed first answer on which every gate passes ends the run at attempt 1 with that answer and its verdicts |
| RunMonotonicity.EveryAnswerIsJudged | src/hermes_dohaa/controller/engine.py:228-490 | no answer is passed over: each attempt before the last gave a new, well-formed proposal that was adopted, or refused because an adopted baseline's scope, immutable paths or failures exclude it, and the run ended for what its last answer was |
| RunMonotonicity.StepAdoptsExactlyWhen | src/hermes_dohaa/controller/engine.py:507-582 | a deterministic step adopts its candidate if and only if the gates still fail and it passes them all, or under a policy stays allowed, unseen, with strictly fewer failures and none of the required ones |
| RunMonotonicity.RepairEndsWhenNothingIsLeft | src/hermes_dohaa/controller/engine.py:492-582 | deterministic repair ends only at its step limit or where no step adopts anything |
| RunMonotonicity.ResultsFitExactlyWhen | src/hermes_dohaa/controller/engine.py:297-336 | a run returns a proposal with verdicts not its own if and only if there is no policy and, within the attempts allowed, some answer repeats an earlier one after answers that were all new, well-formed, failing and without a passing repair, and the gates judge it unlike the answer just before it |
| RunMonotonicity.StopsExactlyAtTheRepeat | src/hermes_dohaa/controller/engine.py:228-336 | without a policy a run stops for want of progress at attempt k if and only if attempt k is the first repeat after attempts that all failed anew, and returns that answer with the verdicts of the one before |
| RunMonotonicity.TwoAttemptsNeverMispair | src/hermes_dohaa/controller/engine.py:228-336 | with at most two attempts the returned verdicts are always those of the returned proposal |
| RunMonotonicity.LegacyNoProgressMispairs | src/hermes_dohaa/controller/engine.py:327-336 | the input: without a policy, a runtime that answers A, B, A gets back A with the verdicts of B |
| BusinessDays.AddBusinessDays | src/hermes_dohaa/assurance/semantic_assertions.py:637-650 | the loop answers the date that many business days away, or the range error exactly if there is none in range, or the offset error exactly beyond the limit |
| BusinessDays.WeekGoesRound | src/hermes_dohaa/assurance/semantic_assertions.py:637-650 | weekdays as the proleptic calendar numbers them, five of seven being business days but for holidays |
| BusinessDays.ShiftIsNearest | src/hermes_dohaa/assurance/semantic_assertions.py:637-650 | the result is the nearest date with exactly that many business days after start, up to and including it, mirrored for negative shifts |
| BusinessDays.ShiftsAddUp | src/hermes_dohaa/assurance/semantic_assertions.py:637-650 | same-sign shifts add up |
| BusinessDays.AnswersAreUnique | src/hermes_dohaa/assurance/semantic_assertions.py:637-650 | what the operator promises determines its answer |
| BusinessDays.AnswersAddUp | src/hermes_dohaa/assurance/semantic_assertions.py:637-650 | the operator's answers add up: after one shift, a second the same way answers, date or range error, what their sum within the limit answers at once |

## Left out

- Databases: SQLite, file locks, fsync, permissions, symlink and path checks are reduced to atomic, durable transactions; integers are unbounded where the source stores them in 64-bit columns.
- Hashing and encoding: SHA-256, base64 and canonical JSON text are injective constructors; where bytes matter, the length of one encoded event and of a request header is an arbitrary function.
- Text parsing: proposal, terminal, record and report text is modelled by what it parses to; how JSON text parses, and duplicate or non-finite literals, are not modelled.
- Clocks, UUIDs and the network: time, fresh identifiers and what a server answers are parameters of each step; a run identifier never repeats.
- Expression operators: apart from references, literals and comparisons, an operator is one arbitrary function of its argument values, so numeric rounding, date parsing and collection operators are not modelled; business-day arithmetic is modelled separately on day numbers.
- Expression parsing and violation reports: the parser's guarantees are a predicate, and the text of a violation and the cut at 100 violations (unreachable with 64 assertions) are left out.
- Repair scopes: paths, rules and groups are sets, so list order, duplicates and the stripping of text in `from_raw` are not modelled.
- JSON documents: an object is a map, so key order is not modelled. An operator can see the order of an object's keys while the diff's equality cannot; that an unchanged value also evaluates alike rests on proposals being cloned with sorted keys (src/hermes_dohaa/controller/engine.py:857-872). Writes clone and rebuild on values rather than in place.
- Controller events and feedback text: the ledger records of a repair run, its feedback and runtime error details are not modelled; a gate that raises is outside the run, and a checkpoint with two gates of one name raises before it writes, so its run simply takes no such action.
- Controller.Run: gates are arbitrary functions of the proposal and the runtime an arbitrary function of the attempt number; feedback to the runtime is not modelled, since any answer is allowed.
- ToolWorkflow: where the source reads in several transactions, `_material`, `_check`, `_pending`, `_no_effect` and `_receipt` are one read each. What they read of a host row is written once, except the effect columns, which `_receipt` reads once; and while a call holds the lock nothing but that call writes intents, receipts or ledger records, so the separate reads see what one read at the moment of the host row's would.
- ToolWorkflow.ControllerEvent: intermediate state-change records of the controller's ledger are left out.
- Resume.AppendedBy: the refusal of a repeated hash, which SharedLedger models, is left out; a refused append raises and writes nothing, so its run simply takes no such action.
- SharedLedger.Refused: waiting for another connection's lock is a refusal, or the same insert taken later; a refused insert ends its append, and its connection is closed or goes on with a new read.
- ToolRoute.Route.Decide: runs to its end; which of its conflicts is raised is not told apart; being cut off between two transactions is covered by the interleaved calls of ToolWorkflow.
- ToolRoute.Route.Execute: as for Decide.
- ToolRoute.Route.Recover: as for Decide.
- ExactlyOnce.StepKeeps: a fault raised inside a transaction rolls it back and is the frame vanishing before it.
- ModelResidency: catalog validation is one valid-or-not answer; the shape checks of a terminal receipt are one flag.
- EvidenceRecords.ResolveQueries: rows hold sets, so the sorted order of groups and reasons, and which of several equally supported groups is cited as a fact's evidence, are left out; parsing failures and excluded sources only end a request early.
- EvidenceSelection.SelectEvidence: the queries in order of recency are given, as library sorting is not modelled; the lengths of one encoded event, of the request around the events and of the query contract are arbitrary, an event's at least one byte.
- QueryMemory.SelectMemory: the newest-first order is given, and how text is cut into tokens is an arbitrary function.
- Native transport, workers, progress, sockets and HTTP: plumbing around libraries that are not part of this model.
- Learning collection, review and development chains, collectors, the evaluation runner, statistics, suites, demos and the command line: they drive the components above and format what those return, and promise nothing about it beyond what is stated here.
- Control-plane identity: captured as one value that either matches or does not; the inspection of source files is not part of this model.
