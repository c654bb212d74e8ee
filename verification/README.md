# TenantScript: protocols and indexes, modelled and proved

TenantScript runs customer plugins on Cloudflare. This project models, in Dafny, the parts of it
that have to survive crashes and concurrency, and the index algorithms of its bundle audit, and
proves what they are for.

- **Setup saga** (`SetupPlan`, `SetupJournal`, `SetupSaga`, `SetupSafety`, `SetupResumption`,
  `SetupConclusion`, `SetupExecutor`): a journalled, resumable provisioning run with compensation. Any
  number of executors interleave on one compare-and-swap journal store; a process dies by taking no
  further step.
- **Worker adapter** (`WorkerAdapter`, `WorkerSetup`, `WorkerRuns`, `WorkerFirstLook`,
  `WorkerRecovery`, `WorkerExposure`, `WorkerCleanup`): the adapter that provisions the control-plane
  Worker, request by request, composed with the saga, with deaths of processes and with other people's
  changes.
- **Execution archive** (`ExecutionRecords`, `ExecutionArchive`): rows move from the database to
  content-addressed objects; a search over both agrees with one flat log.
- **Audit log** (`AuditLog`, `CanonicalJson`, `Json`, `Decimals`): a hash chain appended to
  optimistically, its verifier, and the canonical JSON beneath it.
- **Bundle audit** (`BindingRanges`, `TokenPairs`, `TopLevelSplit`): interval subtraction and a
  binary-searched index, one-pass delimiter pairing, top-level splitting.
- **Installation lifecycle** (`AdminTables`, `AdminRequests`): installs, commands and rollbacks under
  idempotency keys and revision checks made by database triggers.
- **Capability runtime** (`CapabilityBroker`, `KvState`, `RateWindows`): journal replay, byte
  accounting, fixed windows.
- **One-time states and paging** (`OAuthStates`, `KeysetPaging`).

Where the program changes things step by step, the model does too: classes with the stored fields,
loops with invariants, and at every pause the steps of others, given as a parameter. Each such method
is tied to a state machine or a function, and what the program promises is proved of that over every
run. `Options` and `Strings` are shared helpers.

Digests (SHA-256, idempotency keys, fingerprints) are either the digested value itself or a function
assumed injective, which a lemma then names in its `requires`; tamper evidence needs no such
assumption and gives the two texts that collide. Times are integers. Random ids, clocks, provider
answers, transport failures and process deaths are parameters.

## Results to know about

- A run whose cleanup failed cannot be resumed, although `resumeCleanupAndThrow` sets out to: the
  kept failure code makes the parser refuse the next checkpoint
  (`SetupResumption.CleanupIncompleteIsFinal`; `SetupResumption.CheckpointsParse` gives the exact
  condition), and every plan that starts by creating something has a run that ends this way
  (`SetupResumption.CleanupIncompleteIsReached`).
- Otherwise a newcomer can always bring a run to its end (`SetupConclusion.ConcludedExactlyWhen`).
- A first attempt refuses its own run's Worker exactly when a resume's deploy has overtaken it
  (`WorkerFirstLook.FirstMeetsOwnExactlyWhenOvertaken`), which takes two live executors
  (`WorkerFirstLook.SerialFirstNeverMeetsOwn`) and happens (`WorkerFirstLook.OvertakingIsReached`).
- Somebody else's change of the Worker does harm exactly when it falls between search and deploy, between
  tag check and DELETE, or takes a Worker away between search and tag check
  (`WorkerExposure.HarmfulExactlyWhenExposing`); at any other time it does none. A plan's last operation
  is never cleaned up (`SetupSafety.LastIsNeverCleaned`), and in the plan that the program builds that is
  the Worker's; in a plan that goes on after it, cleanup does come to delete it
  (`WorkerCleanup.DeletionIsReached`).
- A duration is measured in fractions of a millisecond (packages/loader/src/cloudflare.ts:275), recorded
  as any finite number (packages/control-plane/src/execution-usage-recorder.ts:161) and kept as such
  (packages/control-plane/migrations/0001_initial.sql:64-75), but the archive's reader takes safe integers
  only. Once such a record is archived, every search that selects its batch fails for good
  (`ExecutionArchive.ArchivingUnreadableSpoils`, `ExecutionArchive.UnreadableIsLost`), and nothing else
  makes a search fail (`ExecutionArchive.SearchEqualsFlatLog`).
- `search` reads rows and manifests without an order; read manifests first, it can miss records
  (`ExecutionArchive.ManifestsFirstMisses` says exactly which, `ExecutionArchive.ArchivedBetweenIsMissed`
  gives one).
- Writers that go past the audit raise the revision too (packages/control-plane/src/storage.ts:285-329
  and packages/control-plane/migrations/0013_runaway_quarantine.sql:14-38), so a revision counts audits
  only in their absence (`AdminTables.NoUpdateIsLost`).
- A rollback request can report a conflict although its success is stored under its key: exactly when it
  was stored between the request's look at the key and its last look at the installation
  (`AdminRequests.AdminDatabase.RollBack`); a retry begun after the commit never does.
- Brokers of one execution that are at one call index together can replace a journalled result, exactly
  when both write and differ (`CapabilityBroker.ReplacedExactlyWhenRaced`).
- A fixed window admits at most 2 * limit - 1 requests in any interval of its length, not 2 * limit, and
  only the limit when it is one millisecond long.
- A range nested in an earlier one can make the binary search miss an index
  (`BindingRanges.SearchIsRightExactlyWhen` says when); other overlaps do no harm
  (`BindingRanges.StaggeredRangesAreSearched`). The two delimiter scans agree on some unbalanced inputs
  and not on others (`TokenPairs.ScansAgreeExactlyWhen` says on which).

## Model

| member | source | states |
|---|---|---|
| `SetupPlan.ProductionPlanIsPlan` | packages/cli/src/setup-plan.ts:76-155 | The built plan has distinct, safe operation ids and every dependency is an earlier operation, for each runtime. |
| `SetupPlan.DependenciesComeFirst` | packages/cli/src/setup-plan.ts:84-132 | In any such plan a dependency's index is smaller than its dependent's. |
| `SetupPlan.CleanupIsReverse` | packages/cli/src/setup-plan.ts:133-143 | The cleanup list names exactly the creating operations, each before everything earlier in the plan. |
| `SetupPlan.DependentsAreCleanedFirst` | packages/cli/src/setup-plan.ts:133-143 | A created operation stands in the cleanup list before every created operation it depends on. |
| `SetupJournal.DueEdit` | packages/cli/src/setup-executor.ts:205-257 | At each point where the executor checkpoints, the parser takes the draft exactly when the revisions are not used up and it does not take up a failed cleanup again; an accepted draft is orderly again and moves entries only along the allowed edges. |
| `SetupJournal.CreatedIsOrderly` | packages/cli/src/setup-executor.ts:81-101 | A journal made for a plan parses, matches its own parameters and has only pending entries. |
| `SetupJournal.ApprovedAreSafe` | packages/cli/src/setup-executor.ts:595-608 | The normalised approval list is free of duplicates and names only plan operations. |
| `SetupJournal.RefusedDraftsDoNotParse` | packages/cli/src/setup-executor.ts:497-533 | A resumed cleanup of a `cleanup-failed` entry keeps its failure code and is refused by the entry check. |
| `SetupJournal.CleaningEditKeeps` | packages/cli/src/setup-executor.ts:272-311 | Cleaning edits keep the journal orderly: the reverse cleanup order, the one failed entry and the state's meaning. |
| `SetupJournal.MainEditKeeps` | packages/cli/src/setup-executor.ts:133-176 | Main-loop edits keep the journal orderly and move one entry forward. |
| `SetupSaga.NextKeepsSafe` | packages/cli/src/setup-executor.ts:103-182 | Every step of every executor keeps one linear, orderly history and each executor's knowledge of the journal it holds. |
| `SetupSaga.SaveKeeps` | packages/cli/src/setup-executor.ts:328-339 | Parse, then compare-and-swap on the revision: a save extends the history by a successor of the stored journal or changes nothing. |
| `SetupSaga.CleanHolds` | packages/cli/src/setup-executor.ts:264-286 | At each position of the cleanup list, what was created later has been attempted already. |
| `SetupSafety.EveryRun` | packages/cli/src/setup-executor.ts:103-182 | All invariants of journals, adapter calls and first attempts hold after every interleaving of any number of starting, dying and restarted executors. |
| `SetupSafety.HistoryMovesForward` | packages/cli/src/setup-executor.ts:420-432 | Stored revisions are consecutive, of one run, plan and approval list, and every entry only moves forward, keeping what was provisioned. |
| `SetupSafety.JournalsKeepTheirShape` | packages/cli/src/setup-executor.ts:497-533 | Every stored journal is finished entries, then at most one in progress or failed, then pending ones; a cleanup phase means exactly one failed entry; state failed means everything created is cleaned; and it parses. |
| `SetupSafety.InitialAttemptOnce` | packages/cli/src/setup-executor.ts:139-158 | No operation is attempted as initial twice, ever, and all its reconcile calls carry one idempotency key. |
| `SetupSafety.DependenciesAreCompletedFirst` | packages/cli/src/setup-executor.ts:133-158 | An operation is reconciled only when everything it depends on is completed in the caller's journal and was called before. |
| `SetupSafety.CleanupIsOfCreatedAfterDependents` | packages/cli/src/setup-executor.ts:264-296 | Cleanup is asked only for a ref checkpointed as created, under the cleanup key, and after the attempt on every created resource that depends on it. |
| `SetupSafety.LastIsNeverCleaned` | packages/cli/src/setup-executor.ts:259-311 | In every run cleanup is never called for the plan's last operation. |
| `SetupResumption.CheckpointsParse` | packages/cli/src/setup-executor.ts:328-339 | In every run, a pending checkpoint is refused by the parser exactly when the revisions are used up or it resumes a failed cleanup, and is stored exactly when it parses and nobody saved meanwhile. |
| `SetupResumption.AbandonedIsFinal` | packages/cli/src/setup-executor.ts:278-286 | Once a failed cleanup's recorder is gone, no run of any executors ever saves again. |
| `SetupResumption.CleanupIncompleteIsFinal` | packages/cli/src/setup-executor.ts:312-319 | A run recorded as cleanup-incomplete can never be resumed: nothing is ever saved after it. |
| `SetupResumption.FailingCleanupStrands` | packages/cli/src/setup-executor.ts:259-319 | From any point of a first cleanup sweep with something failed or still to clean, when every cleanup to come fails, the run is recorded as cleanup-incomplete. |
| `SetupResumption.CleanupIncompleteIsReached` | packages/cli/src/setup-executor.ts:155-181 | For every plan of two to a million operations that starts by creating something, some run ends as cleanup-incomplete: the first operation succeeds, the second fails, and so does the cleanup. |
| `SetupResumption.ResumeSucceeds` | packages/cli/src/setup-executor.ts:133-181 | From anywhere in the main loop, an executor left alone with a succeeding adapter completes the run. |
| `SetupConclusion.ConcludedExactlyWhen` | packages/cli/src/setup-executor.ts:103-319 | In every run with a journal stored and revisions left: a newcomer with the run's parameters can bring it to its end on its own, completed or failed with everything created cleaned, if and only if no entry's cleanup has failed. |
| `SetupConclusion.NewcomerConcludes` | packages/cli/src/setup-executor.ts:103-319 | Started anew, loaded and run with a succeeding adapter, it ends failed when an operation had failed and completed otherwise, a cleanup under way being taken up where it was left. |
| `SetupConclusion.NewcomerIsStuck` | packages/cli/src/setup-executor.ts:278-286 | After a failed cleanup no steps of a newcomer ever save anything or end but in an invalid journal. |
| `SetupConclusion.FreshRunConcludes` | packages/cli/src/setup-executor.ts:103-182 | Where nothing is stored yet a newcomer completes the run from the journal's creation on. |
| `SetupExecutor.SetupProcess.ExecuteProductionSetup` | packages/cli/src/setup-executor.ts:103-182 | The loop over the plan, cut off anywhere and interleaved with others, is a run of the setup machine that ends at the outcome it returns. |
| `SetupExecutor.SetupProcess.CleanupAndThrow` | packages/cli/src/setup-executor.ts:259-319 | The loop over the cleanup list is a run of the machine and never ends in success. |
| `SetupExecutor.SetupProcess.StoreSave` | packages/cli/src/setup-executor.ts:188-192 | A journal replaces the stored one exactly when the expected revision is the stored one, its own is the next, and it parses. |
| `SetupExecutor.SetupProcess.UpdateJournal` | packages/cli/src/setup-executor.ts:328-339 | A checkpoint is one machine save: it goes on where planned or ends with an invalid journal or a revision conflict. |
| `WorkerAdapter.RefRoundTrip` | packages/cli/src/cloudflare-worker-setup-adapter.ts:303-314 | A resource ref reads back as the target name and the digest of its id. |
| `WorkerAdapter.ReconcileAlone` | packages/cli/src/cloudflare-worker-setup-adapter.ts:58-97 | An undisturbed reconcile never changes an existing Worker, claims only one with the run's tag and an existing one only on resume, and answers exactly when its requests go through, a deploy that took effect but was reported as failed included. |
| `WorkerAdapter.CleanupAlone` | packages/cli/src/cloudflare-worker-setup-adapter.ts:98-126 | An undisturbed cleanup deletes exactly when its requests go through and the Worker there has the tag and an id with the ref's digest; with nothing there it succeeds exactly when the search does. |
| `WorkerAdapter.CloudflareWorkerAdapter.Reconcile` | packages/cli/src/cloudflare-worker-setup-adapter.ts:58-97 | The method's requests in order are the request-by-request machine's. |
| `WorkerAdapter.CloudflareWorkerAdapter.CleanupCreated` | packages/cli/src/cloudflare-worker-setup-adapter.ts:98-126 | The same for cleanup. |
| `WorkerSetup.OnlyOwnIsRecordedOrDeleted` | packages/cli/src/cloudflare-worker-setup-adapter.ts:67-119 | In every interleaving of executors, requests, deaths and changes by others that leave no call exposed: only ids deployed with the run's tag are ever recorded as created, only tagged Workers deleted, and none of somebody else's overwritten. |
| `WorkerExposure.HarmfulExactlyWhenExposing` | packages/cli/src/cloudflare-worker-setup-adapter.ts:67-119 | Another's change makes it possible, with no further change from outside, to record, delete or overwrite what is not the run's own exactly when it leaves a call exposed: a Worker put there between search and deploy or between tag check and DELETE, or the one that a search saw taken away before its tag check. |
| `WorkerExposure.DeletesExactlyWhenExposed` | packages/cli/src/cloudflare-worker-setup-adapter.ts:106-121 | From any state, another's Worker can be deleted without a further outside change exactly when it stands there while a call is about to delete. |
| `WorkerExposure.ReplacesExactlyWhenExposed` | packages/cli/src/cloudflare-worker-setup-adapter.ts:71-86 | And overwritten exactly when it stands there while a call is about to deploy. |
| `WorkerExposure.ExposedClaimIsRecorded` | packages/cli/src/cloudflare-worker-setup-adapter.ts:89-95 | A call that saw another's Worker, now gone, can pass the tag check on a Worker deployed since and have the seen one's ref recorded as created. |
| `WorkerExposure.ExposureIsReached` | packages/cli/src/cloudflare-worker-setup-adapter.ts:76-95 | Every plan with the Worker's operation has a run in which one such change exposes a call. |
| `WorkerCleanup.DeletionIsReached` | packages/cli/src/cloudflare-worker-setup-adapter.ts:98-121 | Every plan with an operation after the Worker's has a run in which a cleanup has checked the tag and is about to delete, so that another's Worker put there now is exposed. |
| `WorkerFirstLook.FirstMeetsOwnExactlyWhenOvertaken` | packages/cli/src/cloudflare-worker-setup-adapter.ts:70-75 | At any time of any run, a first attempt about to look meets the run's own Worker exactly when a resume's deploy took effect before and its Worker has stood there since. |
| `WorkerFirstLook.SerialFirstNeverMeetsOwn` | packages/cli/src/cloudflare-worker-setup-adapter.ts:70-75 | With executors one after another it never does, whoever dies where. |
| `WorkerFirstLook.OvertakingIsReached` | packages/cli/src/cloudflare-worker-setup-adapter.ts:70-75 | Every plan with the Worker's operation has a run in which a newcomer's deploy lands first and the first attempt then refuses the Worker of its own run. |
| `WorkerRecovery.FirstDeployIsSteady` | packages/cli/src/cloudflare-worker-setup-adapter.ts:76-86 | The first deploy to take effect leaves the run's one Worker, of the new id, there. |
| `WorkerRecovery.RecoveredUnderTheSameRef` | packages/cli/src/cloudflare-worker-setup-adapter.ts:71-95 | From then on and until it is deleted or replaced, whoever learns of it and whoever dies, every journal ever stored records that operation as created only under this Worker's ref. |
| `WorkerRecovery.LostDeployIsRecovered` | packages/cli/src/cloudflare-worker-setup-adapter.ts:71-95 | Every plan with the Worker's operation has a run in which the process dies right after its deploy took effect and a newcomer records that Worker as created under its ref. |
| `WorkerRecovery.ResumeRecovers` | packages/cli/src/cloudflare-worker-setup-adapter.ts:71-75 | Two answered requests are enough for a resume to find it. |
| `ExecutionRecords.SerializedRoundTrip` | packages/control-plane/src/execution-archive.ts:289-347 | The archive's lines list exactly the records written, and parse back to them exactly when every duration is a safe integer, otherwise not at all. |
| `ExecutionRecords.DocOneLine` | packages/control-plane/src/execution-archive.ts:289-306 | A record's JSON text contains no line break, so lines are records. |
| `ExecutionArchive.RunKeepsSafe` | packages/control-plane/src/execution-archive.ts:95-133 | In every interleaving of writes of any records, puts and commits, with jobs overlapping or dying between put and batch, every record ever written is hot or listed in a manifest's object, whose hash and count are right. |
| `ExecutionArchive.JobsObject` | packages/control-plane/src/execution-archive.ts:105-133 | A job's content-addressed object lists exactly the job's records, whoever put it. |
| `ExecutionArchive.HitIsNotPruned` | packages/control-plane/src/execution-archive.ts:214-235 | Pruning manifests by scope and range drops none that holds a matching record. |
| `ExecutionArchive.SearchIsComplete` | packages/control-plane/src/execution-archive.ts:135-164 | Rows read no later than manifests: the search fails, with an invalid record, exactly when it selects an archive that lists a duration that is no safe integer; otherwise every matching record of the log at the first read is found, and nothing but matching written records. No hash or count check ever fails. |
| `ExecutionArchive.SearchEqualsFlatLog` | packages/control-plane/src/execution-archive.ts:135-164 | With no write between the reads, search equals the sorted, duplicate-free filter of everything ever written, or fails exactly as above. |
| `ExecutionArchive.ArchivingUnreadableSpoils` | packages/control-plane/src/execution-archive.ts:336-347 | Whatever else is in the log, archiving a batch with such a record makes every later search of its scope whose range meets the batch's fail, for good. |
| `ExecutionArchive.UnreadableIsLost` | packages/control-plane/src/execution-archive.ts:289-347 | Any record with a fractional duration, written, put and committed: its search finds it before and fails after. |
| `ExecutionArchive.ReadableLogIsNeverSpoilt` | packages/control-plane/src/execution-archive.ts:336-347 | While every duration written is a safe integer no search fails. |
| `ExecutionArchive.ManifestsFirstMisses` | packages/control-plane/src/execution-archive.ts:137-140 | In the other read order a search that selects no such archive misses a matching record if and only if it left the hot rows for its first archive between the reads; what is answered is right. |
| `ExecutionArchive.ArchivedBetweenIsMissed` | packages/control-plane/src/execution-archive.ts:137-140 | And any record, written, then put and committed between the two reads, is missed so. |
| `ExecutionArchive.SelectedAreExpired` | packages/control-plane/src/execution-archive.ts:168-187 | A job selects at most the limit of hot rows of its scope older than the cutoff, oldest first. |
| `ExecutionArchive.ExecutionArchiveStore.ArchiveExpired` | packages/control-plane/src/execution-archive.ts:95-133 | An archive job is a run of the stores; a returned manifest's object lists the selected rows, readable or not, and none of them is hot any more. |
| `ExecutionArchive.ExecutionArchiveStore.Search` | packages/control-plane/src/execution-archive.ts:135-164 | The loops over objects and the map by id, with the two reads in either order and others acting in between: it fails exactly when it selects an unreadable archive; otherwise rows first it is complete and equals the flat log, manifests first it misses exactly what moved in between. |
| `AuditLog.VerifyEvents` | packages/control-plane/src/audit-log.ts:91-111 | Valid exactly for chains; otherwise the report names the first event out of order, after a valid prefix. |
| `AuditLog.TamperEvident` | packages/control-plane/src/audit-log.ts:193-210 | Two chains of one length ending in one hash are equal event by event; if not, the position of two of their events is given whose canonical texts differ and share a digest. |
| `AuditLog.RowRoundTrip` | packages/control-plane/src/audit-log.ts:252-274 | A stored row reads back as the event it was made from, so it rehashes to its own hash. |
| `AuditLog.RunKeepsLinear` | packages/control-plane/migrations/0011_immutable_audit_log.sql:34-58 | Every interleaving of appenders, with whatever heads they read, keeps every scope a chain with its head at its end. |
| `AuditLog.EveryScopeIsAChain` | packages/control-plane/src/audit-log.ts:114-160 | In every run each scope's stored events are numbered 1..n, linked and rightly hashed, and its head holds n + 1 and the last hash. |
| `AuditLog.AppendIsSound` | packages/control-plane/src/audit-log.ts:114-160 | Whatever others do at its pauses, an append puts its event last in a linear scope or leaves nothing of its own; a chain conflict means three others got in. |
| `AuditLog.AuditDatabase.Append` | packages/control-plane/src/audit-log.ts:114-160 | The retry loop computes exactly the append that is proved sound. |
| `AuditLog.InsertGrowsScope` | packages/control-plane/migrations/0011_immutable_audit_log.sql:34-58 | An insert that the triggers accept extends its scope's chain by the event and moves the head to it. |
| `AuditLog.AuditDatabase.Verify` | packages/control-plane/src/audit-log.ts:76-111 | Verifying a scope that only appenders wrote reports valid, with its length and last hash. |
| `CanonicalJson.CanonicalRoundTrip` | packages/control-plane/src/audit-log.ts:212-233 | Parsing the canonical text of a value gives the value. |
| `CanonicalJson.CanonicalIsInjective` | packages/capabilities/src/index.ts:1138-1165 | Two plain JSON values have the same canonical text only if they are equal up to member order, so comparing texts detects journal conflicts exactly. |
| `CanonicalJson.SortedKeysAreSorted` | packages/control-plane/src/audit-log.ts:225-233 | The printed members are exactly the object's keys in ascending code unit order. |
| `Json.ParsePrinted` | packages/control-plane/src/audit-log.ts:212-233 | Reading a printed JSON document gives it back and stops where it ends (RFC 8259). |
| `BindingRanges.SubtractionIsPointwise` | packages/cli/src/plugin-audit.ts:1662-1679 | The subtraction contains an index exactly when the base does and no exclusion does; its ranges are ordered and separated. |
| `BindingRanges.SubtractBindingRanges` | packages/cli/src/plugin-audit.ts:1662-1679 | The cursor loop computes that subtraction. |
| `BindingRanges.SortRangesSorts` | packages/cli/src/plugin-audit.ts:1703-1707 | Sorting orders the ranges and keeps exactly them. |
| `BindingRanges.SearchRanges` | packages/cli/src/plugin-audit.ts:1681-1701 | The binary search loop computes the probe. |
| `BindingRanges.ProbeIsMembership` | packages/cli/src/plugin-audit.ts:1681-1701 | A positive answer is always right; on ordered, separated ranges the answer is membership. |
| `BindingRanges.SortedDisjointIsSeparated` | packages/cli/src/plugin-audit.ts:1703-1707 | Sorting pairwise disjoint ranges gives the order the search needs. |
| `BindingRanges.SearchIsRightExactlyWhen` | packages/cli/src/plugin-audit.ts:1681-1701 | Among ranges ordered by start, overlapping or not, the search misses a covered index exactly when every range that contains it has a later range, on the search's fixed way to it, that starts by then and ends before the index. |
| `BindingRanges.StaggeredRangesAreSearched` | packages/cli/src/plugin-audit.ts:1681-1701 | So it is right everywhere when the ends are ordered too, whatever the overlaps. |
| `BindingRanges.NestingHidesAnIndex` | packages/cli/src/plugin-audit.ts:1681-1701 | Ranges nested in an earlier one do hide a covered index from the search. |
| `BindingRanges.IndexIsExact` | packages/cli/src/plugin-audit.ts:1397-1408 | For pairwise disjoint scopes of a name, register, sort and search answer exactly: in a declaring scope and in none of its shadow ranges. |
| `BindingRanges.BindingIndex.RegisterBindingRanges` | packages/cli/src/plugin-audit.ts:1397-1408 | Registering adds to each bound name the scope's ranges without its shadows, and changes no other name. |
| `BindingRanges.BindingIndex.SortBindingRanges` | packages/cli/src/plugin-audit.ts:1703-1707 | Sorts every name's ranges in place. |
| `BindingRanges.BindingIndex.BindingAppliesAt` | packages/cli/src/plugin-audit.ts:1681-1701 | Answers for the name's sorted ranges by binary search. |
| `TokenPairs.BuildTokenPairs` | packages/cli/src/plugin-audit.ts:1801-1820 | The one-pass scan with its stack computes the specified pairing. |
| `TokenPairs.PairsAreNested` | packages/cli/src/plugin-audit.ts:1801-1820 | Pairs are symmetric, join delimiters of one kind, never cross, and every opener strictly inside a pair is paired within it. |
| `TokenPairs.PairsFollowGrammar` | packages/cli/src/plugin-audit.ts:1801-1820 | On well-bracketed input the pairing is that of the recursive bracket grammar. |
| `TokenPairs.CollectEnclosingObjectOpens` | packages/cli/src/plugin-audit.ts:1098-1110 | The scan records for each index the specified enclosing brace. |
| `TokenPairs.EnclosingIsInnermost` | packages/cli/src/plugin-audit.ts:1098-1110 | On well-bracketed input that is the innermost open brace whose partner lies strictly after the index. |
| `TokenPairs.ScansAgreeExactlyWhen` | packages/cli/src/plugin-audit.ts:1098-1110 | On every token sequence: each recorded brace is the innermost whose partner lies strictly after the index exactly when every open brace but one at the very end is paired and no unpaired closing brace stands inside a pair of braces. |
| `TokenPairs.UnbalancedScansDisagree` | packages/cli/src/plugin-audit.ts:1098-1110 | A sequence on which they disagree. |
| `TopLevelSplit.SplitTopLevel` | packages/cli/src/plugin-audit.ts:1768-1778 | The loop over depth and cursor computes the specified split. |
| `TopLevelSplit.SplitJoins` | packages/cli/src/plugin-audit.ts:1768-1778 | Joining the pieces with the delimiter gives the input back. |
| `TopLevelSplit.SplitsAtDelimiters` | packages/cli/src/plugin-audit.ts:1768-1778 | Every separator is the delimiter, and the depth inside the last piece is that of the whole input. |
| `TopLevelSplit.PiecesAreIndivisible` | packages/cli/src/plugin-audit.ts:1768-1778 | No piece contains a delimiter at depth 0. |
| `TopLevelSplit.ParameterFollowingRangeStart` | packages/cli/src/plugin-audit.ts:1317-1338 | Returns the start of the piece after the parameter when there is one, else the fallback. |
| `AdminTables.OneInstallPerKeyAndWindow` | packages/control-plane/src/admin-install-flow.ts:148-285 | In every interleaving, two committed installs of one key are a retention window apart, and each left its own installation with its audit row. |
| `AdminTables.NoUpdateIsLost` | packages/control-plane/src/admin-installations.ts:89-174 | An installation's revision exceeds its audited commands and rollbacks by exactly its unaudited writes; with none, replaying the after values gives its state. |
| `AdminTables.AuditsTellTheTruth` | packages/control-plane/src/admin-rollbacks.ts:53-165 | Every audit's before is the installation's true state at the revision before it, its after the state from then on. |
| `AdminTables.ChangeKeepsHistory` | packages/control-plane/migrations/0002_installation_command_audit.sql:24-67 | A command or rollback trigger that accepts keeps states, revisions, counts and replay in step. |
| `AdminTables.InstallRowStays` | packages/control-plane/src/admin-idempotency.ts:1-13 | A key row outlives every install made before it expires. |
| `AdminTables.RollbackRowStays` | packages/control-plane/src/admin-rollbacks.ts:91-130 | The same for rollbacks. |
| `AdminRequests.AdminDatabase.InstallVersion` | packages/control-plane/src/admin-install-flow.ts:148-262 | A success is backed by a committed install of the same key and fingerprint whose window is open, a reused key by one of another fingerprint, and a live row decides alone. |
| `AdminRequests.SameWindowSameResult` | packages/control-plane/src/admin-install-flow.ts:148-285 | The successes that two requests under one key report, their clocks in the window of one committed install, are one result under one fingerprint, whatever happens between them. |
| `AdminRequests.RetriedInstallReplays` | packages/control-plane/src/admin-install-flow.ts:278-285 | A repeated request within the window gets the original result, any other fingerprint is told the key is in use. |
| `AdminRequests.AdminDatabase.RollBack` | packages/control-plane/src/admin-rollbacks.ts:53-165 | A success is backed by a committed rollback audit; a key row live at the start is replayed without a write; and if the key ends up holding a success of this very request, the caller is told it exactly unless it was stored between the request's look at its key and its last look at the installation, and is then told of a conflict. |
| `AdminRequests.RetriedRollbackReplays` | packages/control-plane/src/admin-rollbacks.ts:187-192 | A committed rollback, retried within the window, replays its original success although its revision has moved on. |
| `AdminRequests.RacedRollbackConflicts` | packages/control-plane/src/admin-rollbacks.ts:58-70 | That does happen: the same rollback commits between a request's two first reads. |
| `AdminRequests.AdminDatabase.UpdateInstallation` | packages/control-plane/src/admin-installations.ts:89-174 | A reported change is the newest audit, one revision after the expected one, with the requested fields; a conflict names another revision. |
| `CapabilityBroker.JournalledForever` | packages/capabilities/src/index.ts:316-429 | Once an index is journalled, no later call of any broker changes its entry or asks the limiter or provider under its key. |
| `CapabilityBroker.JournalledForeverInterleaved` | packages/capabilities/src/index.ts:316-429 | The same while calls of different indices are in flight together and processes die. |
| `CapabilityBroker.ReplayedForever` | packages/capabilities/src/index.ts:982-1008 | A later call at a journalled index returns the journalled result if and only if capability and input are the same, and otherwise raises the conflict. |
| `CapabilityBroker.ReturnedIsRepeatable` | packages/capabilities/src/index.ts:388-429 | Whatever a call returned, its repetition by any later broker returns. |
| `CapabilityBroker.ReplacedExactlyWhenRaced` | packages/capabilities/src/index.ts:367-429 | Over every run from a quiet start a journalled result is replaced exactly when a call took off at its index while another of that index was in flight, both wrote, and their results differ. |
| `CapabilityBroker.RacedCallsOverwrite` | packages/capabilities/src/index.ts:509-519 | Two brokers at one index at once do so: both ask the provider and the second result replaces the first. |
| `CapabilityBroker.JournalKeysDiffer` | packages/capabilities/src/index.ts:1134-1136 | Each execution and index has its own journal key, whatever colons the execution id has. |
| `CapabilityBroker.FilteredIs` | packages/capabilities/src/index.ts:1111-1132 | A filtered result holds exactly the allowed fields that the provider returned. |
| `CapabilityBroker.Broker.CallCapability` | packages/capabilities/src/index.ts:320-429 | The method's checks in order are the specified call, and the index moves on whatever becomes of it. |
| `KvState.ReadSnapshot` | packages/capabilities/src/index.ts:1853-1884 | A stored snapshot is taken exactly when its sizes are safe, not negative and sum to the total. |
| `KvState.KvFacet.Read` | packages/capabilities/src/index.ts:1853-1884 | It never fails on a snapshot that the operations wrote. |
| `KvState.KvFacet.Get` | packages/capabilities/src/index.ts:561-567 | Reads what a plain map would hold. |
| `KvState.KvFacet.Put` | packages/capabilities/src/index.ts:569-598 | Stores as a plain map would and reports the sum of sizes, or denies for the first limit broken and changes nothing. |
| `KvState.KvFacet.Remove` | packages/capabilities/src/index.ts:600-617 | Deletes as a plain map would and reports the sum of sizes. |
| `KvState.SetIs` | packages/capabilities/src/index.ts:593-596 | Setting a key changes the size sum by exactly the new size less the old. |
| `KvState.DeleteIs` | packages/capabilities/src/index.ts:607-615 | Deleting a key takes exactly its size off the sum. |
| `RateWindows.LimitersAgree` | packages/control-plane/src/admin-mutation-rate-limit.ts:70-90 | For request times that never go back the two limiters admit exactly the same requests. |
| `RateWindows.LimitersPartWhenTimeGoesBack` | packages/capabilities/src/index.ts:466-474 | They judge a request differently exactly when a clock went back into a full window, and then the Admin limiter admits. |
| `RateWindows.AtMostTwiceTheLimit` | packages/control-plane/src/admin-mutation-rate-limit.ts:70-90 | No interval of the window's length admits more than 2 * limit - 1 requests, or than the limit when the window is one millisecond. |
| `RateWindows.TwiceTheLimitIsReached` | packages/control-plane/src/admin-mutation-rate-limit.ts:70-90 | And that many are reached, for every rule. |
| `RateWindows.RetryReachesTheWindowsEnd` | packages/control-plane/src/admin-mutation-rate-limit.ts:119-126 | retryAfterSeconds lies in 1..windowSeconds, is the least that reaches the window's end, and a request made then is admitted. |
| `RateWindows.CapabilityRateLimiter.CheckRateLimit` | packages/capabilities/src/index.ts:448-496 | Counts one call in its capability's window, stores nothing when it refuses, and leaves other capabilities alone. |
| `KeysetPaging.PresentRowsAreShownOnce` | packages/control-plane/src/admin-dashboard.ts:275-322 | A finished walk shows every row that was there throughout exactly once, whatever came and went between pages. |
| `KeysetPaging.EmittedAreBelow` | packages/control-plane/src/admin-dashboard.ts:462-473 | The rows of a walk are strictly descending in (createdAt, id). |
| `KeysetPaging.EmittedWerePresent` | packages/control-plane/src/admin-dashboard.ts:275-322 | Every row shown was there when its page was read. |
| `KeysetPaging.PagingEnds` | packages/control-plane/src/admin-dashboard.ts:462-473 | A walk that still has a next position has read no more pages than its universe of rows fills. |
| `KeysetPaging.SelectionExists` | packages/control-plane/src/admin-dashboard.ts:280-305 | The page query has an answer on every table. |
| `KeysetPaging.PositionRoundTrip` | packages/control-plane/src/admin-dashboard.ts:475-488 | A position reads back as its row exactly when neither part is empty and the time has no tab. |
| `OAuthStates.ConsumedAtMostOnce` | packages/control-plane/src/oauth-state-store.ts:127-206 | In every run a state is consumed at most as often as issued, and the alarm is always set no later than the earliest stored expiry. |
| `OAuthStates.ConsumedWasIssued` | packages/control-plane/src/oauth-state-store.ts:177-200 | What is consumed had been issued as it is returned. |
| `OAuthStates.WrongBrowserChangesNothing` | packages/control-plane/src/oauth-state-store.ts:191-195 | Another browser's attempt on an unexpired state changes nothing, and the right one still succeeds. |
| `OAuthStates.StoredUntilItEnds` | packages/control-plane/src/oauth-state-store.ts:127-206 | Over every run a stored state stays stored, and consumable by its own browser, exactly until that browser consumes it or a clock reading of its consume or of an alarm reaches its expiry. |
| `OAuthStates.OAuthStateStore.IssueState` | packages/control-plane/src/oauth-state-store.ts:142-175 | Stores a state exactly when request, lifetime and digest allow it, after setting the alarm. |
| `OAuthStates.OAuthStateStore.ConsumeState` | packages/control-plane/src/oauth-state-store.ts:177-200 | Returns and removes the state exactly for its own browser before expiry. |
| `OAuthStates.OAuthStateStore.AlarmFires` | packages/control-plane/src/oauth-state-store.ts:127-140 | Sweeps exactly the expired states and sets the alarm to the earliest expiry left. |
| `OAuthStates.OAuthStateStore.ScheduleNextAlarm` | packages/control-plane/src/oauth-state-store.ts:216-225 | The loop leaves the alarm at the earliest stored expiry, or none when nothing is stored. |

## Left out

- Cloudflare HTTP transport, Wrangler child processes, file locks and renames, body limits: the journal store is an atomic compare-and-swap, the provider one optional Worker, the tables sequences and maps.
- The 65,536-byte limit of a journal file and spurious lock failures, which act like a process that dies.
- The deny list of secret-like words in `isSafeIdentifier`: the model has the length and character rules; every result holds for any further restriction that validation and parser share.
- The D1 and R2 setup adapters, migration runner and doctor: they repeat the Worker adapter's pattern or are fixed-list checks.
- Record-shape validation of Worker search and settings responses: an invalid response is a failed request.
- Forged ownership tags: nobody else deploys under the run's tag.
- A deploy that lands only after its own call has looked again: a request takes effect before its call goes on or not at all.
- Reuse of execution ids, changes of written records and of tenants' apps: `ExecutionArchive` excludes them.
- The order in which manifests are read, which cannot affect a search; `localeCompare` is any total order of ids, the database's order another.
- ISO 8601 formatting of times: a pair of functions of which one undoes the other.
- Lone surrogates, negative zero and the formatting of numbers in JSON: characters are Unicode scalar values and a number is its text. Insignificant white space in JSON text is refused, since no printer here writes it.
- `bigint`, `symbol`, `function`, `Date` and `undefined` values in `stableJson`: plain JSON only.
- Foreign keys to tenants in the audit tables and cascading deletes.
- How requests are fingerprinted: a fingerprint is any function of the request. The program's install fingerprint sorts only the top-level keys of a configuration, so one configuration with nested keys in another order has another fingerprint.
- The collector of nested shadow ranges and the discovery of handlers in `plugin-audit.ts`: heuristics over token text without a specification; shadow ranges are an arbitrary input of a registration.
- The checks of stored install and rollback results, and the safe-integer checks of installation rows: rows are typed.
- Manifest parsing, configuration schemas and grant resolution of an install proposal: a version has a list of capabilities and a predicate of accepted configurations.
- `admin-install-requests.ts` and `admin-approvals.ts`: their installations appear as inserts; the `installation.install.approved` row that an approval writes with its installation is not among the audits here.
- The capabilities' own scope checks, provider implementations and credential handling: a scope check is a function, a provider an answer.
- A crash inside the alarm of the OAuth state store, which the platform retries, and the HTTP front of the store.
- The signed, base64 encoding of cursors around a position.
- Admin UI, template gallery, e-mail, HTTP, GitHub and Slack providers, scaffolding.
