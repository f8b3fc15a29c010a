# Verified models of the state and mutation protocols

A Dafny project that models the parts of the repository that keep authority and mutation state in files several
processes share, and that any process may stop writing at any point. It proves properties of those models; nothing is
executed.

| module | models |
|---|---|
| `PhysicalRegistry` | the in-memory physical submission registry, three maps sharing mutable records, and its hydration loop |
| `WriterProtocol`, `WriterSafety`, `WriterProgress` | any number of durable registry instances and lock recoverers over one registry file, one writer lock and the recovery claims; what one left alone achieves |
| `StoreTransition` | record digests, the whole-store root and the building of a transition |
| `Witness`, `WitnessCommit` | the monotonic witness: loading its log, and committing a prepared transition stopped anywhere |
| `ConsumptionStore` | loading the authorization store, and replaying the committed chain |
| `DispatchProtocol`, `DispatchSafety`, `DispatchProgress` | any number of callers claiming, dispatching and consuming over one witness and one store; what one left alone achieves |
| `LinearizableConsumption` | consuming one authorization under its linearization lock |
| `MutationTransaction`, `MutationJournal`, `JournalAppend`, `JournalProtocol`, `JournalProgress` | the mutation transaction, its hash-chained journal, appending with failures, concurrent appending, and what one worker left alone does |
| `PatchRun` | one governed patch: coordinator, compare-and-replace, verification, compensation, closing, recovery classification |
| `TargetLock`, `TargetProgress` | owners and recoverers of one mutation target, with its lock and recovery claim; what a recovery journals, and what one left alone achieves |
| `LogicalRegistry`, `DurableRegistry` | the logical registry in memory, and the durable one that refines it |
| `Json`, `JsonLaws`, `JsonOrder`, `Utf8`, `FrameDecoder` | canonical JSON (RFC 8259, RFC 8785 section 3.2.3), UTF-8 and the length-prefixed frame codec |
| `EventStream` | the event-stream reader (a subset of section 9.2 of the WHATWG HTML Standard) |
| `TaskState`, `RepairLoop`, `RepairAuthority` | the durable log of transitions, the governed repair loop, and what its mutations presuppose |
| `Wrappers`, `Repetition` | `Option`, `Result`, the size of a subset, and a step taken several times in a row |

Conventions shared by all modules:

- SHA-256 digests and signatures are injective: a digest is a datatype holding what was digested. Comparing digests is
  comparing contents.
- Exclusive create, `link`, `rename`, `unlink` and `mkdir` are single steps. A durability call is a step that may fail. A
  crash is a process that takes no further step.
- Code that works by changing fields, files or loop variables is a class or a method with its loops, proved against a
  specification function; protocols of several processes are state machines whose `Run` is any finite interleaving.
- Field-by-field shape checks are one boolean (`wellShaped`, `exact`, `allowed`); clocks, evidence ports, providers and the
  gateway are inputs.

What the models show beside the safety properties:

- An envelope can be valid and still not hydrate to itself; `HydrationRoundTrip` gives the exact condition, and
  `TrackedHydrates` shows that the registry itself only publishes envelopes that meet it.
- After a stop between the pointer's temporary file and its rename the leftover temporary makes every later load of the
  witness refuse (`FinishedAccepted`); after a stop between creating and writing the COMMITTED file the commit can never
  be completed (`CommitAgain`).
- The journal names a lock only by lock id and recovery evidence only in a marked outcome, so an accepted append need not
  be what a reader reconstructs (`AppendInverts`); a plain transition to RECOVERED of a transaction that already carries
  recovery evidence is read back as a second binding (`ReconstructInverts`, `BareOutcomeReached`); a recovery interrupted
  between its outcome and its FINALIZED record can only be resumed with the same evidence (`OtherEvidenceRefused`).
- The content-addressed provider moves a manifest and a projection inside the Git directory and leaves the worktree file
  at BEFORE, while recovery inspects only that file: an applied content-addressed patch is never recognised after a crash
  (`CrashClassified`), a second patch of the same worktree file is not accepted (`NextAccepted`, `PatchOnce`), and a stop
  between its two ref updates leaves a ref no patch starts from (`Strand`).
- A human-approved call of the repair loop that throws after dispatching leaves the caller with the earlier loop value;
  approving it again dispatches to the same target again, and nothing else does (`MutationsDistinct`, `ApprovedTwice`).
- A claim or a consumption whose caller stops between PREPARED and the new pointer blocks the store for good
  (`StrandedForGood`).

## Model

| member | source | states |
|---|---|---|
| `PhysicalRegistry.Registry.Claim` | accelerator/adapters/control-plane-physical-submission-registry.js:78-115 | Answers and leaves exactly what `Claimed` says of the table the three maps hold: replay, each conflict in its order, or one new accepted entry. |
| `PhysicalRegistry.Registry.RequireBound` | accelerator/adapters/control-plane-physical-submission-registry.js:58-76 | Finds the record of a query exactly when its key and operation name one record and every binding matches, with the errors in their order. |
| `PhysicalRegistry.Registry.Get` | accelerator/adapters/control-plane-physical-submission-registry.js:117-120 | Answers the bound entry, or the binding error, and changes nothing. |
| `PhysicalRegistry.Registry.Observe` | accelerator/adapters/control-plane-physical-submission-registry.js:122-151 | Updates only the bound record, in place, exactly as `Observed` says of the table; every refusal leaves all records alone. |
| `PhysicalRegistry.ClaimKeeps` | accelerator/adapters/control-plane-physical-submission-registry.js:78-115 | A claim keeps keys and external ids unique and every entry replayable, and loses or alters no entry. |
| `PhysicalRegistry.ObserveKeeps` | accelerator/adapters/control-plane-physical-submission-registry.js:122-151 | An observation keeps the same and never lowers a sequence or a rank nor leaves a terminal state. |
| `PhysicalRegistry.ClaimReplays` | accelerator/adapters/control-plane-physical-submission-registry.js:84-93 | A well-shaped claim under a key that is taken is answered with the entry that holds the key, not created again, when the requests are equal, and is an idempotency conflict otherwise; the table stays. |
| `PhysicalRegistry.ClaimConflicts` | accelerator/adapters/control-plane-physical-submission-registry.js:94-105 | A new key for a claimed operation is refused by the first of principal, authority and operation that differs, and a taken external id is refused; the table stays. |
| `PhysicalRegistry.ClaimCreates` | accelerator/adapters/control-plane-physical-submission-registry.js:106-115 | A submission is created exactly when the input is admissible and its key, operation and external id are all new, and then it is the one entry added. |
| `PhysicalRegistry.ClaimTwice` | accelerator/adapters/control-plane-physical-submission-registry.js:78-115 | Claiming the same twice creates once and then answers the same entry. |
| `PhysicalRegistry.BoundMeans` | accelerator/adapters/control-plane-physical-submission-registry.js:58-76 | A query is answered with an entry exactly when it names that entry in every bound field. |
| `PhysicalRegistry.BindingErrors` | accelerator/adapters/control-plane-physical-submission-registry.js:58-76 | Changing one bound field of a query that is answered gives the error of that field. |
| `PhysicalRegistry.ObserveMoves` | accelerator/adapters/control-plane-physical-submission-registry.js:122-151 | An observation is accepted exactly when the query is bound, the sequence is the recorded one and the state may follow; then the entry has the observed state and the next sequence. |
| `PhysicalRegistry.Replay` | accelerator/adapters/durable-control-plane-physical-submission-registry.js:328-338 | The observation loop of hydration ends and leaves what replaying the last observation up to the recorded sequence leaves, or its first error. |
| `PhysicalRegistry.Hydrate` | accelerator/adapters/durable-control-plane-physical-submission-registry.js:320-341 | The hydration loop returns a registry holding what rebuilding the entries one by one gives, or the first error. |
| `PhysicalRegistry.HydrationRoundTrip` | accelerator/adapters/durable-control-plane-physical-submission-registry.js:320-341 | A valid envelope hydrates to exactly its own entries if and only if its external ids are distinct and each entry is one a single observation can rebuild. |
| `PhysicalRegistry.TrackedHydrates` | accelerator/adapters/durable-control-plane-physical-submission-registry.js:320-341 | Every table that claims and observations build meets that condition, so what persist publishes hydrates to the same entries. |
| `WriterSafety.NoLostUpdate` | accelerator/adapters/durable-control-plane-physical-submission-registry.js:347-404 | Over every interleaving of instances, crashes and recoverers each registry write replaces generation g by g+1, and every earlier submission is still there with its request, external id and no lower sequence or rank. |
| `WriterSafety.PublishedIsKept` | accelerator/adapters/durable-control-plane-physical-submission-registry.js:357-404 | A rename puts exactly the calling instance's table on disk, one generation above the one it observed, and every later registry extends it. |
| `WriterSafety.MutualExclusion` | accelerator/adapters/durable-control-plane-physical-submission-registry.js:237-296 | At most one instance is past acquiring the writer lock, and the lock file is its own, also across recoveries. |
| `WriterSafety.RemovesItsOrphan` | accelerator/adapters/control-plane-registry-writer-recovery.js:353-431 | A recoverer about to remove the lock faces the very owner it inspected, which acts no more, has not published, and still describes the current registry. |
| `WriterSafety.RecoveredAtMostOnce` | accelerator/adapters/control-plane-registry-writer-recovery.js:284-303 | Recovery removes the lock of one owner at most once over a whole run, and that owner never publishes its intended generation. |
| `WriterSafety.AlwaysHydrates` | accelerator/adapters/durable-control-plane-physical-submission-registry.js:298-355 | The registry file of any run hydrates without error, to its own entries and nothing else. |
| `WriterProgress.PersistFinishes` | accelerator/adapters/durable-control-plane-physical-submission-registry.js:357-404 | From no writer lock, a call that goes on to persist and is left alone, every step succeeding, ends with the table it leaves published one generation on, the instance idle on it and not poisoned, and the writer lock gone. |
| `WriterProgress.PersistsAgain` | accelerator/adapters/durable-control-plane-physical-submission-registry.js:237-404 | After it another call of the same instance, hydrating nothing, persists in the same way. |
| `WriterProgress.ClaimPersists` | accelerator/adapters/durable-control-plane-physical-submission-registry.js:298-404 | In any state of a run without a writer lock, an idle instance in step with the file goes on to persist every claim whose key, operation and external id are new. |
| `WriterProgress.RecoveryFinishes` | accelerator/adapters/control-plane-registry-writer-recovery.js:284-431 | A recovery of a stopped owner that has not published, left alone with every check passing, removes its lock, records the effect it found for it, and touches neither registry nor instance. |
| `StoreTransition.RootDefined` | accelerator/adapters/natural-development-store-transition.js:127-142 | The whole-store root exists exactly when no two records share an authorization position. |
| `StoreTransition.RootIgnoresOrder` | accelerator/adapters/natural-development-store-transition.js:127-142 | The root is the same for every order in which the directory is listed. |
| `StoreTransition.RootBindsContents` | accelerator/adapters/natural-development-store-transition.js:122-142 | Equal roots come from equal directories. |
| `StoreTransition.BuiltRoot` | accelerator/adapters/natural-development-authorization-consumption-store.js:184-200 | The root signed into a transition is the root recomputed from the directory that publishing it leaves. |
| `Witness.LoadCommittedState` | accelerator/adapters/natural-development-monotonic-witness.js:183-230 | The loading loop accepts exactly the logs that are one gap-free chain of committed generations ending at the pointer, with nothing else in the directory. |
| `Witness.LoadMeans` | accelerator/adapters/natural-development-monotonic-witness.js:183-230 | A load answers the pointed-to event exactly when the log is one chain: generations without a gap from the bootstrap, each prepared on the head of the last commit before it and ended once as it was prepared, nothing later, and the pointer at the last commit. |
| `WitnessCommit.AnyListing` | accelerator/adapters/natural-development-monotonic-witness.js:163-181 | What a load answers does not depend on the order the event files are listed in. |
| `WitnessCommit.WitnessStore.CommitPreparedTransition` | accelerator/adapters/natural-development-monotonic-witness.js:262-315 | Leaves exactly the files and answer of a commit stopped after any number of file effects. |
| `WitnessCommit.InFlightRefused` | accelerator/adapters/natural-development-monotonic-witness.js:206-230 | From a crash anywhere between the PREPARED write and the pointer replacement every load refuses authority. |
| `WitnessCommit.FinishedAccepted` | accelerator/adapters/natural-development-monotonic-witness.js:217-230 | A finished commit loads as its own COMMITTED event if and only if no pointer temporary of a stopped process is left in the directory. |
| `WitnessCommit.CommitAgain` | accelerator/adapters/natural-development-monotonic-witness.js:262-315 | Re-running the commit from any such state ends in the same events and pointer; it is refused exactly when an earlier attempt stopped between creating and writing the COMMITTED file. |
| `WitnessCommit.TornForGood` | accelerator/adapters/natural-development-monotonic-witness.js:298-299 | From any accepted state a commit stopped after its first effect is refused from then on, and so is every load. |
| `WitnessCommit.TemporaryRefused` | accelerator/adapters/natural-development-monotonic-witness.js:45-56 | From any accepted state a commit stopped before its rename can be finished, and is then not accepted: the temporary stays. |
| `WitnessCommit.CommitIdempotent` | accelerator/adapters/natural-development-monotonic-witness.js:286-315 | Once finished, committing the same event again changes nothing and answers the same pointer. |
| `ConsumptionStore.LoadVerifiedStore` | accelerator/adapters/natural-development-authorization-consumption-store.js:134-162 | The loading loop accepts exactly the directories whose every record verifies, with distinct positions and the witnessed root. |
| `ConsumptionStore.LoadedIsReplay` | accelerator/adapters/natural-development-authorization-consumption-store.js:134-162 | A directory that loads under the pointer of a committed chain lists exactly the replay of its transitions: any older or edited directory is rejected. |
| `ConsumptionStore.ClaimedOnce` | accelerator/adapters/natural-development-authorization-consumption-store.js:219-242 | A chain claims an authorization at most once. |
| `ConsumptionStore.HasClaim` | accelerator/adapters/natural-development-authorization-consumption-store.js:247-268 | Every consumption of a chain has its claim before it, with the seven bound fields equal. |
| `ConsumptionStore.Lifecycle` | accelerator/adapters/natural-development-authorization-consumption-store.js:244-281 | Two transitions of one authorization are its claim and then the consumption of that claim, with the seven bound fields equal. |
| `DispatchSafety.OneChain` | accelerator/adapters/natural-development-monotonic-witness.js:232-260 | Over all interleavings the witness history is one chain that only grows: each generation prepared at most once, commits contiguous from the bootstrap, each previousHead the head before. |
| `DispatchSafety.LoadsWhenSettled` | accelerator/adapters/natural-development-monotonic-witness.js:183-230 | At every point of a run a load is granted exactly when no prepared transition is outstanding; a pointer temporary is only ever found beside one, and at most one. |
| `DispatchSafety.StrandedForGood` | accelerator/adapters/natural-development-authorization-consumption-store.js:202-217 | Once the caller of an outstanding transition has stopped, nothing is committed, stored or loaded again for the rest of the run. |
| `DispatchSafety.StopStrands` | accelerator/adapters/natural-development-monotonic-witness.js:262-315 | A caller that stops anywhere between PREPARED and the rename strands its transition, and leaves a temporary exactly when it stopped before the rename. |
| `DispatchSafety.LoadsOnlyTheReplay` | accelerator/adapters/natural-development-authorization-consumption-store.js:134-217 | Whatever reading the directory returns at any point of a run, if it loads it is the replay of the chain committed then. |
| `DispatchSafety.SettledStoreIsReplay` | accelerator/adapters/natural-development-authorization-consumption-store.js:202-217 | With no transition outstanding the directory itself holds exactly the replay of the whole chain. |
| `DispatchSafety.DispatchedAtMostOnce` | accelerator/cli/natural-development-r3-composition.js:720-828 | Over all runs, crashes and concurrent callers no two dispatches carry the same authorization, and each was claimed in the chain by the caller that dispatched. |
| `DispatchSafety.ConsumptionHasClaim` | accelerator/adapters/natural-development-authorization-consumption-store.js:244-281 | In every run each consumption in the chain has exactly one other transition of its authorization, an earlier claim, and carries that claim's seven bound fields: nothing is consumed unclaimed. |
| `DispatchSafety.ConsumptionMatchesClaim` | accelerator/cli/natural-development-authorization-consumption.js:163-204 | In every run two transitions of one authorization are its claim and the consumption of it, with equal bound fields. |
| `DispatchProgress.LoadsOnlySigned` | accelerator/adapters/natural-development-authorization-consumption-store.js:134-162 | Every record of a directory that loads at any point of a run is signed over its own base and store root, and is the record the chain committed then put at that position. |
| `DispatchProgress.CleanClaim` | accelerator/cli/natural-development-r3-composition.js:270-276 | From any state of a run without an outstanding transition, a caller with an authorization the store does not hold, moving alone, dispatches: its claim is the one transition added and committed, its record is in the store, and it is the one dispatch added. |
| `DispatchProgress.CleanConsume` | accelerator/cli/natural-development-r3-composition.js:278-345 | From any such state a caller that has dispatched, moving alone, consumes: its record was still its claim whatever others did, and the consumption bound to it is the one transition added, committed and stored in its place. |
| `DispatchProgress.ClaimStops` | accelerator/adapters/natural-development-authorization-consumption-store.js:219-230 | In every other case a claim stops before it has created anything: while a transition is outstanding, or when the store holds the authorization. |
| `DispatchProgress.ClaimedDispatchedConsumed` | accelerator/cli/natural-development-r3-composition.js:720-828 | Every run without an outstanding transition can be extended by one caller that claims, dispatches once and consumes a fresh authorization, after which again nothing is outstanding. |
| `LinearizableConsumption.OneInside` | accelerator/adapters/natural-development-linearizable-consumption.js:86-173 | At most one caller is between creating and removing the linearization lock of an authorization. |
| `LinearizableConsumption.ReceiptsAgree` | accelerator/adapters/natural-development-linearizable-consumption.js:175-284 | A returned receipt names the consumption that is recorded from then on, so all receipts of an authorization agree. |
| `LinearizableConsumption.AbandonedForGood` | accelerator/adapters/natural-development-linearizable-consumption.js:112-122 | A lock left by a stopped caller is never reclaimed: no later call gets inside. |
| `LinearizableConsumption.CallFinishes` | accelerator/adapters/natural-development-linearizable-consumption.js:86-284 | A call that finds no lock and is left alone answers and gives its lock back; it answers with a receipt exactly when the authorization was claimed or already consumed as it asks, and then it is consumed so. |
| `MutationTransaction.RequireTransaction` | accelerator/core/mutation-transaction.js:235-306 | The checking loop accepts exactly the well-formed transactions. |
| `MutationTransaction.PreparedIsFresh` | accelerator/core/mutation-transaction.js:411-424 | A PREPARED transaction is exactly the created one, so binding a lock always makes version 2. |
| `MutationTransaction.OperationKeeps` | accelerator/core/mutation-transaction.js:381-447 | An operation leaves a transaction the next one accepts, except a recovery with evidence other than an earlier marked outcome names: exactly then not. |
| `MutationTransaction.OperationShape` | accelerator/core/mutation-transaction.js:381-447 | Every operation adds one allowed stage to the history, raises the version by one and changes neither identity nor definition. |
| `MutationTransaction.PastTheStart` | accelerator/core/mutation-transaction.js:276-288 | A history with PHYSICAL_APPLIED or AFTER_VERIFIED holds commit authority earlier, and the transaction carries fitting evidence. |
| `MutationTransaction.CreateFits` | accelerator/core/mutation-transaction.js:184-198 | A created transaction is well formed. |
| `MutationJournal.Reconstruct` | accelerator/adapters/mutation-journal-adapter.js:259-303 | The reconstruction loop returns the transaction the records stand for, or fails at the first record that does not fit. |
| `MutationJournal.HashFixesPrefix` | accelerator/adapters/mutation-journal-adapter.js:234-257 | Two accepted journals with equal record hashes at two positions are at the same position and agree on every record up to it. |
| `MutationJournal.ReconstructInverts` | accelerator/adapters/mutation-journal-adapter.js:193-303 | Recording any sequence of operations and reconstructing gives back the same transaction if and only if no step was a bare outcome; otherwise it fails or differs. |
| `MutationJournal.BareOutcomeReached` | accelerator/adapters/mutation-journal-adapter.js:178-191 | A bare outcome follows any recovery: recover with evidence, require recovery again, declare RECOVERED. |
| `JournalAppend.Journal.Open` | accelerator/adapters/mutation-journal-adapter.js:350-382 | Opening answers exactly the reconstructed transaction, when both it and the requested one are well formed and identical in identity. |
| `JournalAppend.Journal.Create` | accelerator/adapters/mutation-journal-adapter.js:384-420 | Creating writes the one PREPARED record or answers an existing journal of one record; what each failure and a stop after the directory leave. |
| `JournalAppend.Journal.Append` | accelerator/adapters/mutation-journal-adapter.js:422-459 | Appending refuses, converges or adds exactly one record, and answers as specified, for each point of failure. |
| `JournalAppend.AppendInverts` | accelerator/adapters/mutation-journal-adapter.js:422-448 | After an accepted append the journal stands for the candidate exactly when the record carries what the candidate adds: a lock or recovery evidence not named by its own new event is lost. |
| `JournalAppend.UncarriedPublished` | accelerator/adapters/mutation-journal-adapter.js:422-448 | A candidate that is published and not carried is reached from any definition: recovery required, recovered with evidence, required again, declared RECOVERED. |
| `JournalAppend.RetryConverges` | accelerator/adapters/mutation-journal-adapter.js:425-459 | After any failure past the link, appending the same candidate again returns it and adds nothing, exactly when the record carries it. |
| `JournalAppend.LateRetryRefused` | accelerator/adapters/mutation-journal-adapter.js:425-440 | Once a later record is linked a retry is refused and changes nothing. |
| `JournalAppend.EmptyJournalRefused` | accelerator/adapters/mutation-journal-adapter.js:362-364 | A journal stopped between its directory and its first record is refused from then on. |
| `JournalAppend.OtherEvidenceRefused` | accelerator/adapters/mutation-journal-adapter.js:422-424 | After an outcome journaled with evidence, a recovery with other evidence is never journaled. |
| `JournalProtocol.OneRecordPerSequence` | accelerator/adapters/mutation-journal-adapter.js:305-337 | Under any number of concurrent workers a sequence, once linked, keeps its record. |
| `JournalProtocol.NoGap` | accelerator/adapters/mutation-journal-adapter.js:365-372 | The record files are always numbered from 1 without a gap. |
| `JournalProtocol.ReturnedMeans` | accelerator/adapters/mutation-journal-adapter.js:446-458 | A worker that returns linked the record itself, or its candidate is what the journal stood for at that version. |
| `JournalProtocol.WinnerAgrees` | accelerator/adapters/mutation-journal-adapter.js:446-448 | For the linking worker the journal stands for its candidate exactly when the record carries it. |
| `JournalProtocol.LosersAgree` | accelerator/adapters/mutation-journal-adapter.js:449-458 | A loser returns only with a transaction equal to the winner's, provided the record carries that; two losers of one version always agree. |
| `JournalProtocol.ReadsExtend` | accelerator/adapters/mutation-journal-adapter.js:350-382 | A later reading of the journal extends every earlier one. |
| `JournalProgress.AppendsAlone` | accelerator/adapters/mutation-journal-adapter.js:422-459 | In any state of a run an append that is left alone, every step succeeding, leaves the records and gives the answer of the sequential call. |
| `JournalProgress.CreatesAlone` | accelerator/adapters/mutation-journal-adapter.js:384-420 | A creation that is left alone links the first record of a new journal; of one that is there it changes nothing and answers exactly when that holds one record of the same transaction identity. |
| `PatchRun.Run.Advance` | accelerator/core/surgical-orchestrator.js:555-561 | A stage is in the coordinator's history only when it is durable; a lost acknowledgement leaves the journal at most one record ahead, and a retry of the same stage converges. |
| `PatchRun.Run.RequireRecovery` | accelerator/core/surgical-orchestrator.js:580-586 | Journals RECOVERY_REQUIRED at most once, and not after an outcome. |
| `PatchRun.Run.SwapManifest` | accelerator/core/content-addressed-mutation-provider.js:79-149 | The content-addressed provider answers APPLIED only with the ref at the replacement and its projection holding it, from an observed BEFORE; wherever it stops the ref is as found, created for BEFORE, or swapped, and no existing projection is changed. |
| `PatchRun.Run.Materialize` | accelerator/core/git-manifest-materializer.js:542-800 | A projection is only ever created, and reported only once it was read back and matched. |
| `PatchRun.Run.CompareAndReplace` | accelerator/adapters/filesystem-patch-adapter.js:585-600 | An in-place provider never touches the store and the content-addressed one never the target; either changes its content only from BEFORE and only with commit authority in the history. |
| `PatchRun.Run.Prepare` | accelerator/adapters/filesystem-patch-adapter.js:473-567 | Completes with exactly the stages up to COMMIT_AUTHORITY_VERIFIED over the BEFORE content, or stops early; with no fault it completes. |
| `PatchRun.Run.Replace` | accelerator/adapters/filesystem-patch-adapter.js:568-654 | Journals PHYSICAL_APPLIED after the replacement or fails into recovery, for every provider report, denied binding and lost acknowledgement; content-addressed, the manifest and the projection then hold the replacement. |
| `PatchRun.Run.Restore` | accelerator/adapters/filesystem-patch-adapter.js:694-733 | Reports a restore only after the old content was read back; with no fault an owned replacement is restored. |
| `PatchRun.Run.Compensate` | accelerator/adapters/filesystem-patch-adapter.js:668-744 | RESTORED is answered only with the BEFORE content in place; with no fault an owned replacement ends RESTORED and journaled. |
| `PatchRun.Run.Verify` | accelerator/adapters/filesystem-patch-adapter.js:655-758 | APPLIED only after AFTER_VERIFIED was journaled over the replacement, read back from the projection or from the target; a content-addressed failure is never compensated. |
| `PatchRun.Run.Patch` | accelerator/adapters/filesystem-patch-adapter.js:473-765 | APPLIED only with the exact seven stages journaled and the replacement in place where the authority lies; RESTORED and authority refusals only with everything as it was; with no fault APPLIED exactly for a clean patch. |
| `PatchRun.Run.Settle` | accelerator/core/surgical-orchestrator.js:1317-1331 | Settling gives up the lock only for a mutation that left both contents as they were, with its FINALIZED_FAILED journaled; what else completes is journaled as needing recovery, restored, or final already. |
| `PatchRun.Run.Orchestrate` | accelerator/core/surgical-orchestrator.js:1278-1332 | At every stop neither content has left its start without commit authority journaled, AFTER_VERIFIED or FINALIZED_SUCCESS means the replacement is in place, a content-addressed run never changes the target nor answers RESTORED, and the lock is gone only past a FINALIZED record; with no fault exactly a clean patch is applied, finalized and unlocked. |
| `PatchRun.CrashClassified` | accelerator/adapters/filesystem-patch-adapter.js:837-858 | After a stop anywhere, whatever the target held on entry, recovery recognises a changed target and only that as previously authorized: an applied patch exactly when its provider works in place. NOT_APPLIED and RESTORED mean nothing is left changed. |
| `PatchRun.NextAccepted` | accelerator/core/authoritative-target-observation.js:297-400 | Wherever a content-addressed run stopped, another one over the same worktree is accepted exactly when the store is untouched or its ref is at BEFORE with BEFORE projected. |
| `PatchRun.PatchOnce` | accelerator/core/content-addressed-mutation-provider.js:79-149 | After an applied content-addressed patch no other patch of the same worktree file is accepted, unless the replacement was BEFORE itself. |
| `PatchRun.Strand` | accelerator/core/content-addressed-mutation-provider.js:91-107 | A run stopped between creating its ref and swapping it leaves a ref from which no patch is accepted. |
| `TargetLock.OneOwner` | accelerator/adapters/mutation-lock-adapter.js:138-202 | At most one live owner holds a target, under its own token, across recoveries. |
| `TargetLock.OneRecoverer` | accelerator/adapters/mutation-lock-adapter.js:262-290 | At most one recoverer acts under a target's recovery claim. |
| `TargetLock.RemovedOnlyRightly` | accelerator/adapters/mutation-recovery-adapter.js:45-98 | The lock file disappears only by its own owner (before LOCKED or after its FINALIZED record) or by the one recoverer holding the claim after a FINALIZED record of the owner's transaction. |
| `TargetLock.UnresolvedStaysLocked` | accelerator/adapters/mutation-recovery-adapter.js:69-75 | A target whose recovery ended RECOVERY_UNRESOLVED stays locked for the rest of the run. |
| `TargetProgress.VerdictJournaled` | accelerator/core/mutation-recovery.js:45-66 | Over every step of a run in which a recovery lengthens a journal, the terminal stage it adds is FINALIZED_SUCCESS exactly for a patch found applied, FINALIZED_FAILED exactly for one found not applied or restored, and unresolved exactly otherwise. |
| `TargetProgress.FinalizedTells` | accelerator/adapters/mutation-recovery-adapter.js:45-98 | With the verdict recovery classifies a stopped patch by, FINALIZED_SUCCESS is journaled only over the replacement and FINALIZED_FAILED only over contents left as they were. |
| `TargetProgress.RecoveryFinishes` | accelerator/adapters/mutation-recovery-adapter.js:45-98 | A recovery left alone journals what is missing of RECOVERY_REQUIRED, the outcome, EVIDENCE_RECORDED and the terminal stage, gives its claim back, and the lock is gone exactly when the record is final. |
| `TargetProgress.OwnerFinishes` | accelerator/adapters/mutation-lock-adapter.js:138-202 | An owner that finds no lock and is left alone journals its lock and its stages up to the one that ends the transaction, and then its lock is gone. |
| `LogicalRegistry.StepKeeps` | accelerator/adapters/control-plane-submission-registry.js:79-143 | Every call keeps operations, keys and external ids unique. |
| `LogicalRegistry.DecidedSteps` | accelerator/adapters/control-plane-submission-registry.js:49-143 | Deciding from the three maps is the step on the table they index. |
| `LogicalRegistry.ClaimReplays` | accelerator/adapters/control-plane-submission-registry.js:79-92 | A claim under a key that is taken is answered with the entry that holds it when the requests are equal, and is an idempotency conflict otherwise; the table stays. |
| `LogicalRegistry.ClaimAnswers` | accelerator/adapters/control-plane-submission-registry.js:79-112 | A claim with a new key is created exactly when its operation and external id are new, and otherwise refused by what is taken. |
| `LogicalRegistry.BoundMeans` | accelerator/adapters/control-plane-submission-registry.js:49-77 | A query is answered with an entry exactly when it names that entry in every bound field. |
| `LogicalRegistry.ObserveMoves` | accelerator/adapters/control-plane-submission-registry.js:114-143 | An observation is accepted exactly when the query is bound, the sequence is the recorded one and the state may follow: a terminal state only itself, and no state a lower rank. |
| `LogicalRegistry.InMemory.Do` | accelerator/adapters/control-plane-submission-registry.js:79-143 | Each call of the in-memory registry answers and leaves exactly what the step on its table says. |
| `DurableRegistry.ValidateEntries` | accelerator/adapters/durable-control-plane-submission-registry.js:199-215 | The validation loop accepts exactly strictly ascending entries without a repeated key or external id. |
| `DurableRegistry.MapsOf` | accelerator/adapters/durable-control-plane-submission-registry.js:423-433 | The maps rebuilt for each call index exactly the committed entries. |
| `DurableRegistry.Durable.Persist` | accelerator/adapters/durable-control-plane-submission-registry.js:376-421 | What each failure leaves in the file and in the instance; success leaves both at the next generation. |
| `DurableRegistry.Durable.Do` | accelerator/adapters/durable-control-plane-submission-registry.js:463-543 | Each durable call answers and leaves what the in-memory step, the fault and staleness determine. |
| `DurableRegistry.NextEntries` | accelerator/adapters/durable-control-plane-submission-registry.js:363-374 | The sorted entries a call persists list exactly the table its step leaves. |
| `DurableRegistry.Refines` | accelerator/adapters/durable-control-plane-submission-registry.js:463-543 | After any calls, faults and reopenings the file holds what the in-memory registry holds after exactly the calls that counted, and every answer is the one it gives. |
| `DurableRegistry.AnswersAsReference` | accelerator/adapters/durable-control-plane-submission-registry.js:463-543 | With no fault a call is answered as by the in-memory registry exactly when the instance is not stale and the call changes nothing or stays within the safe-integer limits. |
| `DurableRegistry.LostBeforeLeavesNoTrace` | accelerator/adapters/durable-control-plane-submission-registry.js:411-420 | A persist that failed before its rename changes nothing that follows. |
| `DurableRegistry.StaleUntilReopened` | accelerator/adapters/durable-control-plane-submission-registry.js:354-361 | After a persist that failed past its rename every call is refused as stale until the registry is opened again. |
| `JsonLaws.RoundTrip` | accelerator/adapters/local-ipc-framing.js:25-62 | Parsing canonical text gives back the value with its members sorted. |
| `JsonLaws.SerializesSame` | accelerator/adapters/local-ipc-framing.js:56-58 | Two values print alike if and only if they are the same up to the order of members. |
| `JsonOrder.KeysInOrder` | accelerator/adapters/local-ipc-framing.js:56-58 | The members canonical text prints are in the order of UTF-16 code units: at the first unit in which two keys differ the earlier one has ended or is smaller. |
| `JsonLaws.NormalIsSame` | accelerator/adapters/local-ipc-framing.js:56-58 | Sorting members changes no value: every key still finds the same value. |
| `JsonLaws.QuotedRead` | accelerator/adapters/local-ipc-framing.js:26-28 | A quoted string, escapes and lone surrogates included, is read back exactly. |
| `Utf8.DecodesBack` | accelerator/adapters/local-ipc-framing.js:78-100 | Strict decoding undoes encoding of well-formed text. |
| `Utf8.EmitWellFormed` | accelerator/adapters/local-ipc-framing.js:78-79 | Canonical text never holds a lone surrogate. |
| `Utf8.EncodesBack` | accelerator/adapters/local-ipc-framing.js:87-100 | Strict decoding accepts only encodings: what it returns encodes to the same bytes. |
| `FrameDecoder.FrameMade` | accelerator/adapters/local-ipc-framing.js:72-85 | Encoding a value of the program is refused exactly when its body exceeds the limit. |
| `FrameDecoder.HearAppends` | accelerator/adapters/local-ipc-framing.js:113-155 | Hearing bytes in two parts is hearing them at once. |
| `FrameDecoder.Decoder.Push` | accelerator/adapters/local-ipc-framing.js:113-155 | The decoding loop ends in the state that hearing all bytes at once leaves; while open it keeps less than one frame; a closed decoder stays as it is. |
| `FrameDecoder.Decoder.PushOther` | accelerator/adapters/local-ipc-framing.js:115-118 | A chunk that is not bytes closes an open decoder with one error; a closed one stays as it is. |
| `FrameDecoder.Decoder.End` | accelerator/adapters/local-ipc-framing.js:157-164 | Ending an open decoder with bytes left is the truncated-frame error, and otherwise closes it; a closed one stays as it is. |
| `FrameDecoder.Deliver` | accelerator/adapters/local-ipc-framing.js:87-164 | Messages and error depend on the chunks only through the bytes they add up to. |
| `FrameDecoder.FramesRead` | accelerator/adapters/local-ipc-framing.js:72-164 | Decoding the concatenation of encoded messages, cut anywhere, returns those messages in order and no error. |
| `FrameDecoder.FramesThenFail` | accelerator/adapters/local-ipc-framing.js:113-164 | After encoded messages, a header of zero or above the limit, a body that is no JSON text in strict UTF-8, or an end inside a frame is the error of just that cause, and the messages before it are delivered. |
| `EventStream.LeftmostStays` | accelerator/adapters/openai-responses-transport.js:77-82 | The leftmost blank line of a prefix stays the leftmost in every extension, with the same length. |
| `EventStream.DrainAppends` | accelerator/adapters/openai-responses-transport.js:69-83 | Draining a text in two parts is draining it at once. |
| `EventStream.BlockConsumed` | accelerator/adapters/openai-responses-transport.js:78-82 | A block followed by a blank line is consumed exactly, whatever follows. |
| `EventStream.ReadStream` | accelerator/adapters/openai-responses-transport.js:69-91 | Reading fails or returns the output as a function of the concatenated bytes alone, for any text decoder and any reading of a block. |
| `EventStream.ReadQualifiedStream` | accelerator/adapters/openai-responses-transport.js:36-92 | The same with the program's own reading of a block. |
| `EventStream.PartsOf` | accelerator/adapters/openai-responses-transport.js:69-83 | Every text is blocks separated by blank lines, and a rest without one. |
| `EventStream.StreamMeans` | accelerator/adapters/openai-responses-transport.js:48-91 | Reading such blocks succeeds exactly when none is unusable, the bounds hold, one is completed and the text is not blank; the output is then the texts of the delta events in their order. |
| `EventStream.EventRead` | accelerator/adapters/openai-responses-transport.js:48-66 | A block of `data: ` and the canonical text of an object means what its `type` and `delta` say. |
| `TaskState.TakenFolds` | accelerator/cli/natural-durable-task-state.js:91-158 | A transition that is accepted leaves the state its longer log stands for. |
| `TaskState.ReachedIsFolded` | accelerator/cli/natural-durable-task-state.js:91-182 | Every reachable state is the fold of its own log, and that log is lawful: linked, numbered, bounded, each RESUMED directly after a STOPPED, nothing after a terminal one. |
| `TaskState.LawfulIsReached` | accelerator/cli/natural-durable-task-state.js:91-182 | Conversely every lawful log is reached. |
| `TaskState.NoEffectTwice` | accelerator/cli/natural-durable-task-state.js:116-118 | No effect fingerprint is committed twice. |
| `TaskState.CommittedMeans` | accelerator/cli/natural-durable-task-state.js:184-187 | An effect counts as committed exactly when a transition of the log committed it. |
| `TaskState.TimesAscend` | accelerator/cli/natural-durable-task-state.js:104-105 | Times never go back along a log. |
| `TaskState.StatusMeans` | accelerator/cli/natural-durable-task-state.js:91-158 | The status of a reachable state is named by its last transition: COMPLETED, FAILED or STOPPED exactly after that transition; past the first two nothing is accepted and the boundary is terminal. |
| `TaskState.BoundaryMeans` | accelerator/cli/natural-durable-task-state.js:91-158 | A reachable state demands a human resume exactly when the last of its transitions that moves the boundary is a STOPPED. |
| `RepairLoop.MutationsDistinct` | accelerator/cli/natural-governed-repair-loop.js:1114-1230 | Over every run conditional mutations go to pairwise distinct targets if and only if no human-approved one is dispatched after a human-approved one whose call threw. |
| `RepairLoop.MutationsBounded` | accelerator/cli/natural-governed-repair-loop.js:903-930 | However often calls throw, at most min(ceiling, targets) different targets are mutated, all of them allowed. |
| `RepairLoop.ApprovedTwice` | accelerator/cli/natural-governed-repair-loop.js:1369-1411 | The failing run: from a created loop, an approval given again after its call threw dispatches to the same target twice. |
| `RepairLoop.MissionThrowIsLast` | accelerator/cli/natural-development-local-authorization.js:476-479 | Under a mission authority a call that threw is the last to mutate anything: a second derivation for its proposal is refused. |
| `RepairLoop.GreenMeans` | accelerator/cli/natural-governed-repair-loop.js:1323-1367 | GREEN only when the last attempt alone passed its test and qualification succeeded in the same call. |
| `RepairLoop.ReadyMeans` | accelerator/cli/natural-governed-repair-loop.js:1264-1316 | A loop ready for another repair has fewer attempts than its ceiling, and none of them passed. |
| `RepairLoop.ReadyMeansProposable` | accelerator/cli/natural-governed-repair-loop.js:942-950 | A ready loop can take another proposal exactly when it has fewer attempts than targets. |
| `RepairLoop.ProposalReachesGreen` | accelerator/cli/natural-governed-repair-loop.js:1114-1367 | From any run that ends ready and without a mission authority, a legal proposal, approved and answered with success, makes the loop GREEN with one more mutation. |
| `RepairAuthority.DispatchWarranted` | accelerator/cli/natural-governed-repair-loop.js:942-1070 | Whenever a call of a run may dispatch, its proposal was put forward before, bound to the evidence and validated by the gateway; and either the gateway asked for authority and a human approved that very proposal, or the mission had been granted its authority before. |
| `RepairLoop.DispatchLeaves` | accelerator/cli/natural-governed-repair-loop.js:1195-1367 | How a dispatched call leaves the loop: blocked without a record when the mutation was refused; otherwise with one more attempt, and GREEN, ready again or blocked by test, ceiling and qualification. |

## Left out

- Sandboxes, native helpers, process spawning, Git reads, sockets, provider adapters, prompts and presentation: foreign calls.
- Real cryptography, key files, file permissions, symlink and inode checks, path canonicalisation: injective functions and inputs.
- Metrics, latency counters and the reentrancy of message and error callbacks: easy members.
- Field-by-field validation of requests, grants, identities, evidence and envelopes: one boolean each.
- The provisioning of witness, store and keys: every machine starts from the bootstrapped state.
- The collation order of entries in the physical registry file: the file is represented by the table it lists; in `DurableRegistry` an operation id is its place in that order, taken to be strict.
- The byte limit of a registry file: `WriterProtocol` has it as an event at the point where it is checked, `DurableRegistry` as a fault.
- Exclusive creation of an event file as two steps: `WitnessCommit` separates creating from writing, while in `DispatchProtocol` creating an event file is one step.
- The linearization lock inside `DispatchProtocol`: `LinearizableConsumption` models it on its own, because it only restricts which of the interleavings proved safe there occur.
- ABORTED events: read by `Witness`, never written by any machine, as in the program.
- Two durable logical registries racing on one file: the program takes no lock there, so the refinement is for one instance.
- Values JSON cannot express (cycles, accessors, undefined members): a value is a finite tree, so the encoder's refusal of them has no counterpart.
- The decoder's monotonic clock and its error code: the clock is taken to be monotonic.
- Number spellings other than the one printed: a number is its token, and negative zero, which prints as zero, is the same value.
- The text decoder of the event stream: any byte automaton, so its replacement of malformed input is not spelled out.
- Reading failures of the response body, chunks that are not bytes, its status and the request: inputs outside the reader.
- The mission engine behind the repair loop and its plan steps: the loop keeps only what its own decisions read.
- In-place providers: the repository has none of its own, only a boundary that accepts them; the adapter's branches for one are modelled with arbitrary effects and reports.
- Git objects, oids and the manifest format: a manifest is the content it binds, and reading one that exists succeeds or is the failed answer of its step.
- Whether a repeated conditional mutation also changes the target again: the gateway compares the target first, and its classifications are inputs of the loop.
- The store commit inside `LinearizableConsumption` is one step: its parts are those of `DispatchProtocol`.
- `physicalExecution` and `mutationKind` in the writer context, and writer locks in the legacy schema: recovery only compares the former, and leaves the latter alone.
- A pointer rename that fails and has its temporary removed: as a stop before the temporary was written.
- Other writers of the patched target, of its ref and of its projections: they change only by the provider.
- Identities recreated by a second definition with the same digest: digests are injective.
- `releaseFinalized` also admits RECOVERY_UNRESOLVED, a stage the coordinator never reaches by its own appends: `TargetLock` gives owners only the stages the coordinator appends.
